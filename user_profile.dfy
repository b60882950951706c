/** The profile dialog of src/components/UserProfile.tsx: the user record
    is merged from two browser-storage entries with defaults, edited on a
    copy, and written back to both entries on save. Browser storage is
    the `Storage` value, its two entries already parsed from JSON. */
module UserProfile {
  import opened Wrappers
  import opened Seqs

  datatype TravelPreferences = TravelPreferences(budget: string, travelStyle: string, interests: seq<string>)

  datatype UserData = UserData(
    name: string, email: string, avatar: Option<string>,
    bio: string, location: string, joinDate: string, preferences: TravelPreferences)

  /** The `travelcraft_user` entry. */
  datatype StoredUser = StoredUser(name: string, email: string, avatar: Option<string>)

  /** The `travelcraft_profile` entry; any property may be missing. */
  datatype StoredProfile = StoredProfile(
    bio: Option<string>, location: Option<string>, joinDate: Option<string>, preferences: Option<TravelPreferences>)

  datatype Storage = Storage(user: Option<StoredUser>, profile: Option<StoredProfile>)

  const GuestUser := StoredUser("Guest User", "guest@example.com", None)

  const DefaultPreferences := TravelPreferences("Mid-range ($$)", "Cultural Explorer", ["Culture & History", "Food & Dining"])

  /** `value || fallback` for an optional string. */
  function Or(value: Option<string>, fallback: string): (r: string)
    ensures value.Some? && value.value != "" ==> r == value.value
    ensures value.None? || value == Some("") ==> r == fallback
  {
    if value.Some? && value.value != "" then value.value else fallback
  }

  /** The initial user record: the stored user or the guest, with the
      stored profile's bio, location, join date and preferences, each
      falling back to its default when missing or empty; an unset join
      date becomes `nowIso`, the current time as an ISO string. */
  function LoadProfile(storage: Storage, nowIso: string): (u: UserData)
    ensures storage.user.None? ==> u.name == GuestUser.name && u.email == GuestUser.email && u.avatar == None
    ensures storage.user.Some? ==>
      u.name == storage.user.value.name && u.email == storage.user.value.email && u.avatar == storage.user.value.avatar
    ensures storage.profile.None? ==>
      u.bio == "" && u.location == "" && u.joinDate == nowIso && u.preferences == DefaultPreferences
    ensures storage.profile.Some? ==>
      var p := storage.profile.value;
      && u.bio == Or(p.bio, "") && u.location == Or(p.location, "") && u.joinDate == Or(p.joinDate, nowIso)
      && u.preferences == (if p.preferences.Some? then p.preferences.value else DefaultPreferences)
  {
    var base := if storage.user.Some? then storage.user.value else GuestUser;
    var profile := if storage.profile.Some? then storage.profile.value else StoredProfile(None, None, None, None);
    UserData(base.name, base.email, base.avatar,
      Or(profile.bio, ""), Or(profile.location, ""), Or(profile.joinDate, nowIso),
      if profile.preferences.Some? then profile.preferences.value else DefaultPreferences)
  }

  /** What `handleSave` writes: name and email to the user entry, the rest
      to the profile entry. */
  function SaveProfile(u: UserData): (s: Storage)
    ensures s.user == Some(StoredUser(u.name, u.email, None))
    ensures s.profile == Some(StoredProfile(Some(u.bio), Some(u.location), Some(u.joinDate), Some(u.preferences)))
  {
    Storage(Some(StoredUser(u.name, u.email, None)),
      Some(StoredProfile(Some(u.bio), Some(u.location), Some(u.joinDate), Some(u.preferences))))
  }

  /** Saving and loading again gives the saved record back, except that
      the avatar is not written and an empty join date is replaced by the
      time of loading. */
  lemma SaveLoadRoundTrip(u: UserData, nowIso: string)
    ensures u.avatar == None && u.joinDate != "" ==> LoadProfile(SaveProfile(u), nowIso) == u
    ensures LoadProfile(SaveProfile(u), nowIso) == u.(avatar := None, joinDate := Or(Some(u.joinDate), nowIso))
  {
  }

  /** Saving what was just loaded changes nothing more when loaded again. */
  lemma LoadSaveLoad(storage: Storage, nowIso: string, later: string)
    requires nowIso != ""
    ensures var u := LoadProfile(storage, nowIso);
      LoadProfile(SaveProfile(u), later) == u.(avatar := None)
  {
  }

  class ProfileState {
    var userData: UserData
    var editData: UserData
    var isEditing: bool
    /** The two storage entries this dialog reads and writes. */
    var storage: Storage

    /** Opening the dialog: load, and edit a copy. */
    constructor (s: Storage, nowIso: string)
      ensures storage == s && userData == LoadProfile(s, nowIso) && editData == userData && !isEditing
    {
      storage := s;
      userData := LoadProfile(s, nowIso);
      editData := userData;
      isEditing := false;
    }

    /** `handleSave`: the edited copy is stored and becomes the shown
        record. */
    method Save()
      modifies this`storage, this`userData, this`isEditing
      ensures storage == SaveProfile(editData) && userData == editData && !isEditing
    {
      storage := SaveProfile(editData);
      userData := editData;
      isEditing := false;
    }

    /** `handleCancel`: the edits are discarded. */
    method Cancel()
      modifies this`editData, this`isEditing
      ensures editData == userData && !isEditing
    {
      editData := userData;
      isEditing := false;
    }

    /** The header's Edit/Cancel button only flips the mode: unlike
        `handleCancel` it keeps the edited copy. */
    method ToggleEditing()
      modifies this`isEditing
      ensures isEditing == !old(isEditing)
    {
      isEditing := !isEditing;
    }

    /** `toggleInterest` on the edited copy. */
    method ToggleInterest(interest: string)
      modifies this`editData
      ensures editData == old(editData).(preferences :=
        old(editData).preferences.(interests := Toggle(old(editData).preferences.interests, interest)))
    {
      editData := editData.(preferences := editData.preferences.(interests := Toggle(editData.preferences.interests, interest)));
    }
  }
}
