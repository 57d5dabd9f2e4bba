/** The client's session: the signed-in user, mirrored in the browser's
    key-value storage under "token" and "user" so that it survives a reload. */
module AuthContext {

  import opened Common
  import opened SessionJson

  const TOKEN_KEY: string := "token"
  const USER_KEY: string := "user"
  const OUTSIDE_PROVIDER: string := "useAuth must be used within an AuthProvider"

  /** `localStorage`: text values under text keys. */
  class LocalStorage {
    var items: map<string, string>

    constructor (items: map<string, string>)
      ensures this.items == items
    {
      this.items := items;
    }

    /** `getItem(key)`: `null` for a missing key. */
    function GetItem(key: string): (v: Option<string>)
      reads this
      ensures v.Some? <==> key in items
      ensures v.Some? ==> v.value == items[key]
    {
      if key in items then Some(items[key]) else None
    }

    method SetItem(key: string, value: string)
      modifies this
      ensures items == old(items)[key := value]
    {
      items := items[key := value];
    }

    method RemoveItem(key: string)
      modifies this
      ensures items == old(items) - {key}
    {
      items := items - {key};
    }
  }

  /** `s && ...`: a stored text counts only when it is there and not empty. */
  predicate Truthy(v: Option<string>) {
    v.Some? && v.value != ""
  }

  /** What the first load does with the stored items: the user it signs in,
      and whether the stored pair is thrown away. */
  function Restore(items: map<string, string>): (r: (Option<SessionUser>, bool))
    ensures r.0.Some? ==> !r.1
    ensures r.0.Some? <==>
              && TOKEN_KEY in items && items[TOKEN_KEY] != ""
              && USER_KEY in items && items[USER_KEY] != "" && Parse(items[USER_KEY]).Some?
    ensures r.0.Some? ==> r.0 == Parse(items[USER_KEY])
    ensures r.1 <==>
              && TOKEN_KEY in items && items[TOKEN_KEY] != ""
              && USER_KEY in items && items[USER_KEY] != "" && Parse(items[USER_KEY]).None?
  {
    var token := if TOKEN_KEY in items then Some(items[TOKEN_KEY]) else None;
    var data := if USER_KEY in items then Some(items[USER_KEY]) else None;
    if Truthy(token) && Truthy(data) then
      match Parse(data.value)
      case Some(u) => (Some(u), false)
      case None => (None, true)
    else (None, false)
  }

  /** What `login` and `register` store for a successful reply. */
  function Stored(items: map<string, string>, token: string, u: SessionUser): map<string, string> {
    items[TOKEN_KEY := token][USER_KEY := Stringify(u)]
  }

  /** A reload after a successful sign-in restores the same user, provided
      the server sent a non-empty token. */
  lemma {:induction false} SignInSurvivesReload(items: map<string, string>, token: string, u: SessionUser)
    requires token != ""
    ensures Restore(Stored(items, token, u)) == (Some(u), false)
  {
    ParseStringify(u);
  }

  /** After a logout a reload signs nobody in and removes nothing more. */
  lemma LogoutSurvivesReload(items: map<string, string>)
    ensures Restore(items - {TOKEN_KEY, USER_KEY}) == (None, false)
  {
  }

  /** The reply of the login and register endpoints as the client reads it. */
  datatype AuthReply = AuthReply(token: string, user: SessionUser)

  datatype LoginRequest = LoginRequest(email: string, password: string)
  datatype RegisterRequest = RegisterRequest(name: string, email: string, password: string, isHost: bool)

  class AuthProvider {
    const storage: LocalStorage
    var user: Option<SessionUser>
    var isLoading: bool

    constructor (storage: LocalStorage)
      ensures this.storage == storage && user == None && isLoading
    {
      this.storage := storage;
      user := None;
      isLoading := true;
    }

    /** The first-load effect: signs in the stored user when both keys are
        set and the user text parses; a text that does not parse makes it
        remove both keys. Loading ends in every case. */
    method InitialLoad()
      modifies this, storage
      ensures !isLoading
      ensures var (restored, discard) := Restore(old(storage.items));
        && (restored.Some? ==> user == restored && storage.items == old(storage.items))
        && (restored.None? ==> user == old(user))
        && (discard ==> storage.items == old(storage.items) - {TOKEN_KEY, USER_KEY})
        && (!discard ==> storage.items == old(storage.items))
    {
      var token := storage.GetItem(TOKEN_KEY);
      var data := storage.GetItem(USER_KEY);
      if Truthy(token) && Truthy(data) {
        var parsed := Parse(data.value);
        if parsed.Some? {
          user := parsed;
        } else {
          storage.RemoveItem(TOKEN_KEY);
          storage.RemoveItem(USER_KEY);
        }
      }
      isLoading := false;
    }

    /** `login`: `reply` is what the login endpoint answers, `None` when the
        call fails; then the error is rethrown and nothing changes. */
    method Login(email: string, password: string, reply: Option<AuthReply>)
      returns (sent: LoginRequest, thrown: bool)
      modifies this, storage
      ensures sent == LoginRequest(email, password) && isLoading == old(isLoading)
      ensures thrown <==> reply.None?
      ensures reply.None? ==> user == old(user) && storage.items == old(storage.items)
      ensures reply.Some? ==>
                && storage.items == Stored(old(storage.items), reply.value.token, reply.value.user)
                && user == Some(reply.value.user)
    {
      sent := LoginRequest(email, password);
      if reply.None? {
        return sent, true;
      }
      storage.SetItem(TOKEN_KEY, reply.value.token);
      storage.SetItem(USER_KEY, Stringify(reply.value.user));
      user := Some(reply.value.user);
      thrown := false;
    }

    /** `register`: the same as `login`, with the host flag defaulting to false. */
    method Register(name: string, email: string, password: string, isHost: Option<bool>, reply: Option<AuthReply>)
      returns (sent: RegisterRequest, thrown: bool)
      modifies this, storage
      ensures sent == RegisterRequest(name, email, password, isHost.GetOr(false)) && isLoading == old(isLoading)
      ensures thrown <==> reply.None?
      ensures reply.None? ==> user == old(user) && storage.items == old(storage.items)
      ensures reply.Some? ==>
                && storage.items == Stored(old(storage.items), reply.value.token, reply.value.user)
                && user == Some(reply.value.user)
    {
      sent := RegisterRequest(name, email, password, isHost.GetOr(false));
      if reply.None? {
        return sent, true;
      }
      storage.SetItem(TOKEN_KEY, reply.value.token);
      storage.SetItem(USER_KEY, Stringify(reply.value.user));
      user := Some(reply.value.user);
      thrown := false;
    }

    /** `logout`: both keys removed, nobody signed in. */
    method Logout()
      modifies this, storage
      ensures user == None && isLoading == old(isLoading)
      ensures storage.items == old(storage.items) - {TOKEN_KEY, USER_KEY}
    {
      storage.RemoveItem(TOKEN_KEY);
      storage.RemoveItem(USER_KEY);
      user := None;
    }
  }

  datatype Result<T> = Success(value: T) | Failure(error: string)

  /** `useAuth()`: the provider's value, or the error thrown outside any provider. */
  function UseAuth<T>(context: Option<T>): (r: Result<T>)
    ensures r.Failure? <==> context.None?
    ensures r.Failure? ==> r.error == OUTSIDE_PROVIDER
    ensures r.Success? ==> r.value == context.value
  {
    match context
    case None => Failure(OUTSIDE_PROVIDER)
    case Some(c) => Success(c)
  }
}
