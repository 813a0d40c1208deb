/**
 * `UserProfileViewModel`: the signed-in user's profile listener with its
 * per-uid guard, the profile mapping with the email fallback, `updateProfile`
 * with its checks and merged payload, and the saving flag.
 */
module ProfileVm {
  import opened Wrappers
  import opened Records
  import Text

  const NOT_LOGGED_IN: string := "Not logged in"
  const NAME_REQUIRED: string := "Name is required"

  /** `UserProfile`. */
  datatype UserProfile = UserProfile(
    uid: string,
    name: string,
    email: string,
    phone: string,
    department: string,
    yearLevel: string,
    profileImageUrl: string)

  const EMPTY_PROFILE: UserProfile := UserProfile("", "", "", "", "", "", "")

  /** `UserProfileUiState`. */
  datatype ProfileUi = ProfileUi(loading: bool, saving: bool, error: Option<string>)

  /**
   * The view model: the profile shown, its UI state, and the uid whose
   * listener is live (the listener is created together with `listeningUid`
   * and is never set back to null, so one optional uid stands for both).
   */
  datatype State = State(profile: UserProfile, ui: ProfileUi, listening: Option<string>)

  function Initial(): State {
    State(EMPTY_PROFILE, ProfileUi(false, false, None), None)
  }

  datatype Outcome = Outcome(state: State, effects: seq<Effect>)

  function UserPath(uid: string): string {
    "users/" + uid
  }

  /**
   * `listenMyProfile`: nothing without a user, nothing when that user's
   * listener is already live; otherwise the old listener goes, the new one
   * starts and loading is shown.
   */
  function ListenMyProfile(s: State, uid: Option<string>): (o: Outcome)
    ensures uid.None? || s.listening == uid ==> o == Outcome(s, [])
    ensures uid.Some? && s.listening != uid ==>
      && o.state == s.(listening := uid, ui := s.ui.(loading := true, error := None))
      && o.effects == (if s.listening.Some? then [Unlisten(UserPath(s.listening.value))] else [])
                      + [Listen(UserPath(uid.value))]
  {
    if uid.None? || s.listening == uid then Outcome(s, [])
    else
      var stop := if s.listening.Some? then [Unlisten(UserPath(s.listening.value))] else [];
      Outcome(s.(listening := uid, ui := s.ui.(loading := true, error := None)), stop + [Listen(UserPath(uid.value))])
  }

  /** Asking twice for the same user's profile listens once. */
  lemma ListenTwiceIsNoOp(s: State, uid: Option<string>)
    ensures var t := ListenMyProfile(s, uid).state; ListenMyProfile(t, uid) == Outcome(t, [])
  {
  }

  /**
   * The profile a snapshot shows: missing fields (or a missing document) read
   * as empty, and a blank stored email falls back to the signed-in email.
   */
  function ProfileOf(uid: string, doc: Option<Doc>, authEmail: Option<string>): (p: UserProfile)
    ensures p.uid == uid
    ensures doc.None? ==> p == EMPTY_PROFILE.(uid := uid, email := Text.OrEmpty(authEmail))
    ensures doc.Some? && GetString(doc.value, Name).Some? ==> p.name == GetString(doc.value, Name).value
    ensures doc.Some? && GetString(doc.value, Name).None? ==> p.name == ""
    ensures doc.Some? && GetString(doc.value, Phone).Some? ==> p.phone == GetString(doc.value, Phone).value
    ensures doc.Some? && GetString(doc.value, Phone).None? ==> p.phone == ""
    ensures doc.Some? && GetString(doc.value, Department).Some? ==> p.department == GetString(doc.value, Department).value
    ensures doc.Some? && GetString(doc.value, Department).None? ==> p.department == ""
    ensures doc.Some? && GetString(doc.value, YearLevel).Some? ==> p.yearLevel == GetString(doc.value, YearLevel).value
    ensures doc.Some? && GetString(doc.value, YearLevel).None? ==> p.yearLevel == ""
    ensures doc.Some? && GetString(doc.value, ProfileImageUrl).Some? ==>
      p.profileImageUrl == GetString(doc.value, ProfileImageUrl).value
    ensures doc.Some? && GetString(doc.value, ProfileImageUrl).None? ==> p.profileImageUrl == ""
    ensures (doc.Some? && GetString(doc.value, Email).Some? && !Text.IsBlank(GetString(doc.value, Email).value)) ==>
      p.email == GetString(doc.value, Email).value
    ensures (doc.None? || GetString(doc.value, Email).None? || Text.IsBlank(GetString(doc.value, Email).value)) ==>
      p.email == Text.OrEmpty(authEmail)
  {
    var field := (f: Field) => if doc.Some? then Text.OrEmpty(GetString(doc.value, f)) else "";
    UserProfile(uid, field(Name), Text.IfBlank(field(Email), Text.OrEmpty(authEmail)), field(Phone),
                field(Department), field(YearLevel), field(ProfileImageUrl))
  }

  /** A snapshot arrived for the user being listened to. */
  function OnProfile(s: State, uid: string, doc: Option<Doc>, authEmail: Option<string>): (r: State)
    ensures r.profile == ProfileOf(uid, doc, authEmail)
    ensures r.ui == s.ui.(loading := false, error := None) && r.listening == s.listening
  {
    s.(profile := ProfileOf(uid, doc, authEmail), ui := s.ui.(loading := false, error := None))
  }

  /** The listener failed: the profile stays, the message is shown. */
  function OnProfileFailed(s: State, message: Option<string>): (r: State)
    ensures r == s.(ui := s.ui.(loading := false, error := message))
  {
    s.(ui := s.ui.(loading := false, error := message))
  }

  /** The profile fields, as written. */
  function ProfileTexts(name: string, email: string, phone: string, department: string, yearLevel: string,
                        imageUrl: string): (p: Payload)
    ensures p.Keys == {Name, Email, Phone, Department, YearLevel, ProfileImageUrl}
    ensures p[Name] == Str(name) && p[Email] == Str(email) && p[Phone] == Str(phone)
    ensures p[Department] == Str(department) && p[YearLevel] == Str(yearLevel) && p[ProfileImageUrl] == Str(imageUrl)
  {
    map[Name := Str(name), Email := Str(email), Phone := Str(phone), Department := Str(department),
        YearLevel := Str(yearLevel), ProfileImageUrl := Str(imageUrl)]
  }

  /**
   * The merge `updateProfile` writes: the trimmed texts, the signed-in email
   * (never the caller's) and the update time.
   */
  function ProfilePayload(authEmail: Option<string>, name: string, phone: string, department: string,
                          yearLevel: string, imageUrl: string, now: int): (p: Payload)
    ensures p.Keys == {Name, Email, Phone, Department, YearLevel, ProfileImageUrl, UpdatedAt}
    ensures p[Email] == Str(Text.OrEmpty(authEmail)) && p[UpdatedAt] == Time(now)
  {
    ProfileTexts(Text.Trim(name), Text.OrEmpty(authEmail), Text.Trim(phone), Text.Trim(department),
                 Text.Trim(yearLevel), Text.Trim(imageUrl))[UpdatedAt := Time(now)]
  }

  /** Every text field the update writes, other than the email, is trimmed. */
  lemma ProfilePayloadTrimmed(authEmail: Option<string>, name: string, phone: string, department: string,
                              yearLevel: string, imageUrl: string, now: int)
    ensures var p := ProfilePayload(authEmail, name, phone, department, yearLevel, imageUrl, now);
            && p[Name].Str? && Text.IsTrimmed(p[Name].s)
            && p[Phone].Str? && Text.IsTrimmed(p[Phone].s)
            && p[Department].Str? && Text.IsTrimmed(p[Department].s)
            && p[YearLevel].Str? && Text.IsTrimmed(p[YearLevel].s)
            && p[ProfileImageUrl].Str? && Text.IsTrimmed(p[ProfileImageUrl].s)
  {
  }

  lemma ProfileFromFields(d: Doc, name: string, email: string, phone: string, department: string,
                          yearLevel: string, imageUrl: string, now: int, authEmail: Option<string>)
    requires !Text.IsBlank(email) || email == Text.OrEmpty(authEmail)
    ensures ProfileOf(d.id, Some(Merge(d, ProfileTexts(name, email, phone, department, yearLevel, imageUrl)[UpdatedAt := Time(now)])), authEmail)
         == UserProfile(d.id, name, email, phone, department, yearLevel, imageUrl)
  {
  }

  /**
   * After a successful update, the next snapshot (for the same signed-in user)
   * shows the trimmed fields and the signed-in email, whatever the document held.
   */
  lemma UpdatedProfileReadsBack(d: Doc, authEmail: Option<string>, name: string, phone: string,
                                department: string, yearLevel: string, imageUrl: string, now: int)
    ensures ProfileOf(d.id, Some(Merge(d, ProfilePayload(authEmail, name, phone, department, yearLevel, imageUrl, now))), authEmail)
         == UserProfile(d.id, Text.Trim(name), Text.OrEmpty(authEmail), Text.Trim(phone), Text.Trim(department),
                        Text.Trim(yearLevel), Text.Trim(imageUrl))
  {
    ProfileFromFields(d, Text.Trim(name), Text.OrEmpty(authEmail), Text.Trim(phone), Text.Trim(department),
                      Text.Trim(yearLevel), Text.Trim(imageUrl), now, authEmail);
  }

  /**
   * `updateProfile`: the login check first, then a blank name; neither writes
   * nor touches the saving flag. Otherwise saving starts and the payload is merged.
   */
  function UpdateProfile(s: State, uid: Option<string>, authEmail: Option<string>, name: string, phone: string,
                         department: string, yearLevel: string, imageUrl: string, now: int): (o: Outcome)
    ensures uid.None? ==> o == Outcome(s.(ui := s.ui.(error := Some(NOT_LOGGED_IN))), [])
    ensures uid.Some? && Text.IsBlank(name) ==> o == Outcome(s.(ui := s.ui.(error := Some(NAME_REQUIRED))), [])
    ensures o.effects != [] <==> uid.Some? && !Text.IsBlank(name)
    ensures o.effects != [] ==>
      && o.state == s.(ui := s.ui.(saving := true, error := None))
      && o.effects == [SetDoc(UserPath(uid.value),
                              ProfilePayload(authEmail, name, phone, department, yearLevel, imageUrl, now), true)]
  {
    if uid.None? then Outcome(s.(ui := s.ui.(error := Some(NOT_LOGGED_IN))), [])
    else
      var trimmedName := Text.Trim(name);
      Text.BlankAfterTrim(name);
      if Text.IsBlank(trimmedName) then Outcome(s.(ui := s.ui.(error := Some(NAME_REQUIRED))), [])
      else
        Outcome(s.(ui := s.ui.(saving := true, error := None)),
                [SetDoc(UserPath(uid.value), ProfilePayload(authEmail, name, phone, department, yearLevel, imageUrl, now), true)])
  }

  /** The write finished: saving ends; a failure shows its message, a success keeps the error slot. */
  function OnSaved(s: State, c: Completion): (r: State)
    ensures !r.ui.saving
    ensures c.Succeeded? ==> r.ui.error == s.ui.error
    ensures c.Failed? ==> r.ui.error == c.failure.message
    ensures r.(ui := s.ui) == s && r.ui.loading == s.ui.loading
  {
    match c
    case Succeeded => s.(ui := s.ui.(saving := false))
    case Failed(f) => s.(ui := s.ui.(saving := false, error := f.message))
  }

  /** A successful update shows no error once it completes. */
  lemma SaveSucceedsClean(s: State, uid: Option<string>, authEmail: Option<string>, name: string, phone: string,
                          department: string, yearLevel: string, imageUrl: string, now: int)
    requires uid.Some? && !Text.IsBlank(name)
    ensures var r := OnSaved(UpdateProfile(s, uid, authEmail, name, phone, department, yearLevel, imageUrl, now).state, Succeeded);
            r.ui == s.ui.(saving := false, error := None)
  {
  }

  function ClearError(s: State): (r: State)
    ensures r.ui.error.None? && r.ui.loading == s.ui.loading && r.ui.saving == s.ui.saving
    ensures r.(ui := s.ui) == s
  {
    s.(ui := s.ui.(error := None))
  }
}
