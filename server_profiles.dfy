/** The profile routes: one profile per user, read, created, updated and
    deleted by the caller only. The table is keyed by the owning user. */
module ServerProfiles {

  import opened Common
  import opened Crypto

  /** The free-form profile fields; `None` for a field that is absent (or, for
      a stored `dob`, null). */
  datatype ProfileFields = ProfileFields(
    bio: Option<string>,
    phone: Option<string>,
    gender: Option<string>,
    dob: Option<string>,
    avatar: Option<string>,
    location: Option<string>)

  /** The profile registration and login create: every text field "" and `dob` null. */
  const EMPTY_FIELDS: ProfileFields := ProfileFields(Some(""), Some(""), Some(""), None, Some(""), Some(""))

  datatype Profile = Profile(user: UserId, fields: ProfileFields)

  /** The body of `POST /`, including any `user` the client might send. */
  datatype ProfileBody = ProfileBody(user: Option<UserId>, fields: ProfileFields)

  /** The names of the profile fields. */
  datatype ProfileKey = Bio | Phone | Gender | Dob | Avatar | Location

  function Field(f: ProfileFields, k: ProfileKey): Option<string> {
    match k
    case Bio => f.bio
    case Phone => f.phone
    case Gender => f.gender
    case Dob => f.dob
    case Avatar => f.avatar
    case Location => f.location
  }

  /** `$set: req.body`: every field present in the body replaces the stored
      one, and every field the body leaves out keeps its value. */
  function SetFields(f: ProfileFields, body: ProfileFields): (r: ProfileFields)
    ensures forall k :: Field(body, k).Some? ==> Field(r, k) == Field(body, k)
    ensures forall k :: Field(body, k).None? ==> Field(r, k) == Field(f, k)
  {
    ProfileFields(
      if body.bio.Some? then body.bio else f.bio,
      if body.phone.Some? then body.phone else f.phone,
      if body.gender.Some? then body.gender else f.gender,
      if body.dob.Some? then body.dob else f.dob,
      if body.avatar.Some? then body.avatar else f.avatar,
      if body.location.Some? then body.location else f.location)
  }

  /** The table after "ensure the user has a profile": unchanged when there is one. */
  function Ensured(profiles: map<UserId, Profile>, user: UserId): (r: map<UserId, Profile>)
    ensures user in r && r.Keys == profiles.Keys + {user}
    ensures user in profiles ==> r == profiles
    ensures user !in profiles ==> r[user] == Profile(user, EMPTY_FIELDS)
    ensures forall u :: u in profiles ==> r[u] == profiles[u]
  {
    if user in profiles then profiles else profiles[user := Profile(user, EMPTY_FIELDS)]
  }

  /** Ensuring a profile twice is ensuring it once, so repeated logins leave one profile. */
  lemma EnsuredIdempotent(profiles: map<UserId, Profile>, user: UserId)
    ensures Ensured(Ensured(profiles, user), user) == Ensured(profiles, user)
  {
  }

  class ProfileTable {
    var profiles: map<UserId, Profile>

    /** Each profile is stored under its own user. */
    ghost predicate Valid()
      reads this
    {
      forall u :: u in profiles ==> profiles[u].user == u
    }

    constructor ()
      ensures Valid() && profiles == map[]
    {
      profiles := map[];
    }

    /** `GET /`: the caller's profile, or 404. */
    method Get(caller: Claims) returns (status: Status, found: Option<Profile>)
      ensures caller.id !in profiles ==> status == NOT_FOUND && found == None
      ensures caller.id in profiles ==> status == OK && found == Some(profiles[caller.id])
    {
      if caller.id !in profiles {
        return NOT_FOUND, None;
      }
      status, found := OK, Some(profiles[caller.id]);
    }

    /** `POST /`: 400 when the caller already has a profile; otherwise stores
        the body's fields under the caller, whatever `user` the body names. */
    method Create(caller: Claims, body: ProfileBody) returns (status: Status)
      requires Valid()
      modifies this
      ensures Valid()
      ensures caller.id in old(profiles) ==> status == BAD_REQUEST && profiles == old(profiles)
      ensures caller.id !in old(profiles) ==>
                status == CREATED && profiles == old(profiles)[caller.id := Profile(caller.id, body.fields)]
    {
      if caller.id in profiles {
        return BAD_REQUEST;
      }
      profiles := profiles[caller.id := Profile(caller.id, body.fields)];
      status := CREATED;
    }

    /** `PUT /`: sets the given fields on the caller's profile; 404 without creating one. */
    method Update(caller: Claims, body: ProfileFields) returns (status: Status, updated: Option<Profile>)
      requires Valid()
      modifies this
      ensures Valid()
      ensures caller.id !in old(profiles) ==> status == NOT_FOUND && updated == None && profiles == old(profiles)
      ensures caller.id in old(profiles) ==>
                && status == OK
                && updated == Some(Profile(caller.id, SetFields(old(profiles)[caller.id].fields, body)))
                && profiles == old(profiles)[caller.id := updated.value]
    {
      if caller.id !in profiles {
        return NOT_FOUND, None;
      }
      var p := Profile(caller.id, SetFields(profiles[caller.id].fields, body));
      profiles := profiles[caller.id := p];
      status, updated := OK, Some(p);
    }

    /** `DELETE /`: removes the caller's profile, or 404. */
    method Delete(caller: Claims) returns (status: Status)
      requires Valid()
      modifies this
      ensures Valid()
      ensures caller.id !in old(profiles) ==> status == NOT_FOUND && profiles == old(profiles)
      ensures caller.id in old(profiles) ==> status == OK && profiles == old(profiles) - {caller.id}
    {
      if caller.id !in profiles {
        return NOT_FOUND;
      }
      profiles := profiles - {caller.id};
      status := OK;
    }

    /** Registration saves a fresh empty profile for the new user, who has
        none yet. */
    method CreateEmpty(user: UserId)
      requires Valid() && user !in profiles
      modifies this
      ensures Valid()
      ensures profiles == old(profiles)[user := Profile(user, EMPTY_FIELDS)]
    {
      profiles := profiles[user := Profile(user, EMPTY_FIELDS)];
    }

    /** Login saves an empty profile only when the user has none. */
    method EnsureProfile(user: UserId)
      requires Valid()
      modifies this
      ensures Valid()
      ensures profiles == Ensured(old(profiles), user)
    {
      if user !in profiles {
        profiles := profiles[user := Profile(user, EMPTY_FIELDS)];
      }
    }
  }
}
