/** The profile page: it loads the signed-in user's profile into a form of
    plain strings and saves the form back with a partial update. */
module ProfilePage {

  import opened Common
  import opened Text
  import opened ServerProfiles

  datatype ProfileForm = ProfileForm(
    bio: string, phone: string, gender: string, dob: string, avatar: string, location: string)

  const BLANK_FORM: ProfileForm := ProfileForm("", "", "", "", "", "")

  /** The form's text under the `name` of an input (or select): the same
      names as the stored profile's fields. */
  function FieldOf(f: ProfileForm, name: ProfileKey): string {
    match name
    case Bio => f.bio
    case Phone => f.phone
    case Gender => f.gender
    case Dob => f.dob
    case Avatar => f.avatar
    case Location => f.location
  }

  /** `{ ...prev, [name]: value }` */
  function WithField(f: ProfileForm, name: ProfileKey, value: string): (r: ProfileForm)
    ensures forall other :: FieldOf(r, other) == if other == name then value else FieldOf(f, other)
  {
    match name
    case Bio => f.(bio := value)
    case Phone => f.(phone := value)
    case Gender => f.(gender := value)
    case Dob => f.(dob := value)
    case Avatar => f.(avatar := value)
    case Location => f.(location := value)
  }

  /** `data.dob ? data.dob.split("T")[0] : ""`: the date part of a stored
      date-time, which is the part before the first 'T'. */
  function DateOnly(dob: Option<string>): (r: string)
    ensures 'T' !in r
    ensures dob.Some? ==> r <= dob.value
    ensures dob.Some? && 'T' !in dob.value ==> r == dob.value
    ensures dob.None? ==> r == ""
  {
    if dob.Some? && dob.value != "" then
      SplitFirstPiece(dob.value, 'T');
      Split(dob.value, 'T')[0]
    else ""
  }

  /** The form filled from a fetched profile: a missing field shows blank,
      a present text field shows as stored, and the date shows without a time. */
  function FormFromProfile(data: ProfileFields): (r: ProfileForm)
    ensures forall k :: Field(data, k).None? ==> FieldOf(r, k) == ""
    ensures forall k :: k != Dob && Field(data, k).Some? ==> FieldOf(r, k) == Field(data, k).value
    ensures 'T' !in r.dob && (data.dob.Some? ==> r.dob <= data.dob.value)
    ensures r.dob == DateOnly(data.dob)
  {
    ProfileForm(data.bio.GetOr(""), data.phone.GetOr(""), data.gender.GetOr(""),
                DateOnly(data.dob), data.avatar.GetOr(""), data.location.GetOr(""))
  }

  /** `{ ...formData, dob: formData.dob || undefined }`: every field is sent,
      except an empty date, which is left out of the request. Reading what is
      sent back into a form gives the form, when its date is a plain date. */
  function Payload(form: ProfileForm): (p: ProfileFields)
    ensures forall k :: k != Dob ==> Field(p, k).Some?
    ensures forall k :: k != Dob ==> Field(p, k) == Some(FieldOf(form, k))
    ensures form.dob != "" ==> p.dob == Some(form.dob)
    ensures p.dob.None? <==> form.dob == ""
    ensures form.dob != "" && 'T' !in form.dob ==> FormFromProfile(p) == form
  {
    ProfileFields(Some(form.bio), Some(form.phone), Some(form.gender),
                  if form.dob == "" then None else Some(form.dob),
                  Some(form.avatar), Some(form.location))
  }

  /** The profile registration creates shows as a blank form. */
  lemma EmptyProfileShowsBlank()
    ensures FormFromProfile(EMPTY_FIELDS) == BLANK_FORM
  {
  }

  /** Saving a form and loading the profile again shows the same form, when
      the date is set and is a plain date. */
  lemma {:induction false} SaveThenLoad(stored: ProfileFields, form: ProfileForm)
    requires form.dob != "" && 'T' !in form.dob
    ensures FormFromProfile(SetFields(stored, Payload(form))) == form
  {
    assert SetFields(stored, Payload(form)).dob == Some(form.dob);
    assert DateOnly(Some(form.dob)) == form.dob;
  }

  /** A date cannot be cleared: saving with an empty date leaves the stored
      one in place, and the next load shows it again. */
  lemma {:induction false} ClearedDateComesBack(stored: ProfileFields, form: ProfileForm)
    requires form.dob == ""
    ensures SetFields(stored, Payload(form)).dob == stored.dob
    ensures FormFromProfile(SetFields(stored, Payload(form))).dob == DateOnly(stored.dob)
  {
    assert Payload(form).dob == None;
  }

  /** A stored date-time such as 1990-05-01T00:00:00.000Z shows as its date. */
  lemma {:induction false} DateOfDateTime(date: string, time: string)
    requires 'T' !in date && |time| > 0 && time[0] == 'T'
    ensures DateOnly(Some(date + time)) == date
  {
    SplitPrefix(date, time, 'T');
    assert Split(time, 'T')[0] == "";
    assert date + "" == date;
  }

  class ProfilePageState {
    var profile: ProfileFields
    var form: ProfileForm
    var isLoading: bool
    var isSaving: bool

    constructor ()
      ensures profile == ProfileFields(None, None, None, None, None, None)
      ensures form == BLANK_FORM && isLoading && !isSaving
    {
      profile := ProfileFields(None, None, None, None, None, None);
      form := BLANK_FORM;
      isLoading, isSaving := true, false;
    }

    /** The load effect. `fetched` is what `getProfile` returns, `None` when it
        fails (no profile yet): then the form stays as it is. Loading ends in
        every case. */
    method LoadProfile(signedIn: bool, fetched: Option<ProfileFields>)
      modifies this
      ensures !isLoading && isSaving == old(isSaving)
      ensures signedIn && fetched.Some? ==> profile == fetched.value && form == FormFromProfile(fetched.value)
      ensures !(signedIn && fetched.Some?) ==> profile == old(profile) && form == old(form)
    {
      if signedIn && fetched.Some? {
        profile := fetched.value;
        form := FormFromProfile(fetched.value);
      }
      isLoading := false;
    }

    /** `handleChange`: only the named field changes. */
    method HandleChange(name: ProfileKey, value: string)
      modifies this
      ensures form == WithField(old(form), name, value)
      ensures profile == old(profile) && isLoading == old(isLoading) && isSaving == old(isSaving)
    {
      form := WithField(form, name, value);
    }

    /** `handleSelectChange`: the same update, for the gender select. */
    method HandleSelectChange(name: ProfileKey, value: string)
      modifies this
      ensures form == WithField(old(form), name, value)
      ensures profile == old(profile) && isLoading == old(isLoading) && isSaving == old(isSaving)
    {
      form := WithField(form, name, value);
    }

    /** `handleSubmit`: sends the form as a partial update; saving ends
        whether the update succeeds or not, and the form is kept. */
    method HandleSubmit() returns (sent: ProfileFields)
      modifies this
      ensures sent == Payload(form) && !isSaving
      ensures form == old(form) && profile == old(profile) && isLoading == old(isLoading)
    {
      isSaving := true;
      sent := Payload(form);
      isSaving := false;
    }
  }
}
