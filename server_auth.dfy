/** The authentication routes: registration stores a hashed password, an
    empty profile and issues a token; login checks the credentials, makes sure
    a profile exists and issues a token carrying the host flag. */
module ServerAuth {

  import opened Common
  import opened Crypto
  import opened ServerProfiles

  datatype User = User(name: string, email: string, password: PasswordHash, isHost: bool)

  /** The body of `POST /register`; the client also sends `isHost`, which the route ignores. */
  datatype RegisterBody = RegisterBody(name: string, email: string, password: string, isHost: Option<bool>)

  /** `{ token, user }`: the whole saved user document is sent back, its
      `_id` (here `id`) and the password hash included. */
  datatype RegisterReply = RegisterReply(token: Token, id: UserId, user: User)

  /** The user part of a login reply: no email and no password hash. */
  datatype PublicUser = PublicUser(id: UserId, name: string, isHost: bool)

  datatype LoginReply = LoginReply(token: Token, user: PublicUser)

  const INVALID_CREDENTIALS: string := "Invalid credentials"

  /** `User.findOne({ email })`: the first user, in insertion order, with that email. */
  function FirstWithEmail(users: seq<User>, email: string): (r: Option<UserId>)
    ensures r.None? <==> forall i :: 0 <= i < |users| ==> users[i].email != email
    ensures r.Some? ==>
              && r.value < |users| && users[r.value].email == email
              && forall i :: 0 <= i < r.value ==> users[i].email != email
  {
    if |users| == 0 then None
    else if users[0].email == email then Some(0)
    else match FirstWithEmail(users[1..], email)
      case None => None
      case Some(k) => Some(k + 1)
  }

  /** Whom the credentials identify: the first user with the email, if the
      password matches that user's hash. A later user with the same email is
      never reached. */
  function Authenticate(users: seq<User>, kdf: Kdf, email: string, password: string): (r: Option<UserId>)
    ensures (forall i :: 0 <= i < |users| ==> users[i].email != email) ==> r.None?
    ensures forall i :: 0 <= i < |users| && users[i].email == email
                          && (forall j :: 0 <= j < i ==> users[j].email != email) ==>
              (r.Some? <==> Compare(kdf, password, users[i].password)) && (r.Some? ==> r.value == i)
  {
    match FirstWithEmail(users, email)
    case None => None
    case Some(id) => if Compare(kdf, password, users[id].password) then Some(id) else None
  }

  /** Every stored profile belongs to a registered user. */
  predicate ProfilesOfUsers(users: seq<User>, profiles: map<UserId, Profile>) {
    forall u :: u in profiles ==> u < |users|
  }

  class UserTable {
    /** The users in insertion order; a user's id is its position. */
    var users: seq<User>
    /** bcrypt's key derivation, fixed when the server starts. */
    const kdf: Kdf

    constructor (kdf: Kdf)
      ensures users == [] && this.kdf == kdf
    {
      users := [];
      this.kdf := kdf;
    }

    /** `POST /register`: stores the hash of the password (never the password),
        creates the user's empty profile and issues a token holding only the id. */
    method Register(body: RegisterBody, salt: nat, profiles: ProfileTable) returns (status: Status, reply: RegisterReply)
      requires profiles.Valid() && ProfilesOfUsers(users, profiles.profiles)
      modifies this, profiles
      ensures profiles.Valid() && ProfilesOfUsers(users, profiles.profiles)
      ensures status == CREATED && reply.id == |old(users)|
      ensures users == old(users) + [User(body.name, body.email, Hash(kdf, body.password, salt), false)]
      ensures profiles.profiles == old(profiles.profiles)[reply.id := Profile(reply.id, EMPTY_FIELDS)]
      ensures reply.token == Sign(Claims(reply.id, None)) && reply.user == users[reply.id]
    {
      var user := User(body.name, body.email, Hash(kdf, body.password, salt), false);
      var id := |users|;
      users := users + [user];
      profiles.CreateEmpty(id);
      status := CREATED;
      reply := RegisterReply(Sign(Claims(id, None)), id, user);
    }

    /** `POST /login`: the same 401 for an unknown email and a wrong password;
        otherwise a profile is ensured and a token with id and host flag issued. */
    method Login(email: string, password: string, profiles: ProfileTable)
      returns (status: Status, message: string, reply: Option<LoginReply>)
      requires profiles.Valid() && ProfilesOfUsers(users, profiles.profiles)
      modifies profiles
      ensures profiles.Valid() && ProfilesOfUsers(users, profiles.profiles)
      ensures reply.None? <==> Authenticate(users, kdf, email, password).None?
      ensures reply.None? ==>
                && status == UNAUTHORIZED && message == INVALID_CREDENTIALS
                && profiles.profiles == old(profiles.profiles)
      ensures reply.Some? ==>
                var id := Authenticate(users, kdf, email, password).value;
                && status == OK
                && reply.value.token == Sign(Claims(id, Some(users[id].isHost)))
                && reply.value.user == PublicUser(id, users[id].name, users[id].isHost)
                && profiles.profiles == Ensured(old(profiles.profiles), id)
    {
      var found := FirstWithEmail(users, email);
      if found.None? {
        return UNAUTHORIZED, INVALID_CREDENTIALS, None;
      }
      var id := found.value;
      var user := users[id];
      if !Compare(kdf, password, user.password) {
        return UNAUTHORIZED, INVALID_CREDENTIALS, None;
      }
      profiles.EnsureProfile(id);
      status, message := OK, "";
      reply := Some(LoginReply(Sign(Claims(id, Some(user.isHost))), PublicUser(id, user.name, user.isHost)));
    }
  }

  /** A registration token carries no host flag, so its holder cannot create
      listings until they log in, whatever they registered as. */
  lemma RegisterTokenIsNotHost(id: UserId)
    ensures !IsHost(Sign(Claims(id, None)).claims)
  {
  }

  /** After registering, logging in with the same email and password
      identifies the newly registered user, provided no earlier user has that email. */
  lemma {:induction false} RegisterThenLogin(users: seq<User>, kdf: Kdf, body: RegisterBody, salt: nat)
    requires forall i :: 0 <= i < |users| ==> users[i].email != body.email
    ensures var after := users + [User(body.name, body.email, Hash(kdf, body.password, salt), false)];
      Authenticate(after, kdf, body.email, body.password) == Some(|users|)
  {
    var after := users + [User(body.name, body.email, Hash(kdf, body.password, salt), false)];
    assert after[|users|].email == body.email;
    assert forall i :: 0 <= i < |users| ==> after[i] == users[i];
  }
}
