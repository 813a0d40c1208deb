/**
 * `StudentProfileScreen`: the save button's decision tree and the photo
 * upload, which first targets the user's own folder and, when Storage refuses
 * with NOT_AUTHORIZED, retries once under the events folder. Storage itself is
 * an effect (`PutFile`, whose result is the download URL or a failure).
 */
module ProfileScreen {
  import opened Wrappers
  import opened Records
  import Text
  import Decimal
  import ProfileVm

  const NOT_SIGNED_IN: string := "Not logged in. Please sign in again."
  const UPLOAD_FAILED: string := "Profile image upload failed. Saved details without updating photo."
  const SAVING: string := "Saving..."
  const SAVE_PROFILE: string := "Save Profile"

  function PrimaryPath(uid: string, stamp: int): string {
    "users/" + uid + "/profile_" + Decimal.LongToString(stamp) + ".jpg"
  }

  function FallbackPath(uid: string, stamp: int): string {
    "events/profile_pictures/" + uid + "/profile_" + Decimal.LongToString(stamp) + ".jpg"
  }

  /** The two upload targets never coincide: one starts with "users/", the other with "events/". */
  lemma PathsDiffer(uid: string, stamp: int)
    ensures PrimaryPath(uid, stamp) != FallbackPath(uid, stamp)
  {
    assert PrimaryPath(uid, stamp)[0] == 'u';
    assert FallbackPath(uid, stamp)[0] == 'e';
  }

  /** An upload in flight: the user, the stamp of the click, and whether a retry is still allowed. */
  datatype Attempt = Attempt(uid: string, stamp: int, allowFallback: bool)

  function AttemptPath(a: Attempt): (path: string)
    ensures a.allowFallback ==> path == PrimaryPath(a.uid, a.stamp)
    ensures !a.allowFallback ==> path == FallbackPath(a.uid, a.stamp)
  {
    if a.allowFallback then PrimaryPath(a.uid, a.stamp) else FallbackPath(a.uid, a.stamp)
  }

  datatype Details = Details(name: string, phone: string, department: string, yearLevel: string)

  /** The screen's local state; `imageUri` is the picked image, if any. */
  datatype Form = Form(
    details: Details,
    imageUri: Option<string>,
    localImageUrl: string,
    uploading: bool,
    localError: Option<string>,
    attempt: Option<Attempt>)

  /** The signed-in user as the screen and the view model see it, and the clock. */
  datatype Env = Env(uid: Option<string>, authEmail: Option<string>, now: int)

  datatype State = State(form: Form, vm: ProfileVm.State)

  datatype Outcome = Outcome(state: State, effects: seq<Effect>)

  /** The fields follow the stored profile whenever it changes. */
  function Sync(f: Form, p: ProfileVm.UserProfile): (r: Form)
    ensures r.details == Details(p.name, p.phone, p.department, p.yearLevel)
    ensures r.localImageUrl == p.profileImageUrl
    ensures r.(details := f.details, localImageUrl := f.localImageUrl) == f
  {
    f.(details := Details(p.name, p.phone, p.department, p.yearLevel), localImageUrl := p.profileImageUrl)
  }

  /** `vm.updateProfile` with the fields as typed and the given image URL. */
  function SaveDetails(f: Form, vm: ProfileVm.State, env: Env, imageUrl: string): ProfileVm.Outcome {
    ProfileVm.UpdateProfile(vm, env.uid, env.authEmail, f.details.name, f.details.phone, f.details.department,
                            f.details.yearLevel, imageUrl, env.now)
  }

  /** `saveDetailsWithImage`: the upload is over, the picked image is consumed and its URL adopted. */
  function SaveWithImage(s: State, env: Env, url: string): (o: Outcome)
    ensures !o.state.form.uploading && o.state.form.imageUri.None? && o.state.form.attempt.None?
    ensures o.state.form.localImageUrl == url
    ensures o.effects == SaveDetails(s.form, s.vm, env, url).effects
  {
    var f := s.form.(uploading := false, imageUri := None, localImageUrl := url, attempt := None);
    var saved := SaveDetails(f, s.vm, env, url);
    Outcome(State(f, saved.state), saved.effects)
  }

  /** `saveDetailsWithoutImage`: the upload is over and the details are saved with the old URL. */
  function SaveWithoutImage(s: State, env: Env, message: string): (o: Outcome)
    ensures !o.state.form.uploading && o.state.form.attempt.None?
    ensures o.state.form.localError == Some(message)
    ensures o.state.form.localImageUrl == s.form.localImageUrl && o.state.form.imageUri == s.form.imageUri
    ensures o.effects == SaveDetails(s.form, s.vm, env, s.form.localImageUrl).effects
  {
    var f := s.form.(uploading := false, localError := Some(message), attempt := None);
    var saved := SaveDetails(f, s.vm, env, f.localImageUrl);
    Outcome(State(f, saved.state), saved.effects)
  }

  /** The save button. */
  function Save(s: State, env: Env, stamp: int): (o: Outcome)
    ensures s.form.imageUri.None? ==>
      o.effects == SaveDetails(s.form, s.vm, env, s.form.localImageUrl).effects
      && o.state.form == s.form.(localError := None)
    ensures s.form.imageUri.Some? && (env.uid.None? || Text.IsBlank(env.uid.value)) ==>
      o == Outcome(State(s.form.(uploading := false, localError := Some(NOT_SIGNED_IN)), s.vm), [])
    ensures s.form.imageUri.Some? && env.uid.Some? && !Text.IsBlank(env.uid.value) ==>
      o.state == State(s.form.(uploading := true, localError := None, attempt := Some(Attempt(env.uid.value, stamp, true))), s.vm)
      && o.effects == [PutFile(PrimaryPath(env.uid.value, stamp))]
  {
    var f := s.form.(localError := None);
    if f.imageUri.None? then
      var saved := SaveDetails(f, s.vm, env, f.localImageUrl);
      Outcome(State(f, saved.state), saved.effects)
    else if env.uid.None? || Text.IsBlank(env.uid.value) then
      Outcome(State(f.(uploading := false, localError := Some(NOT_SIGNED_IN)), s.vm), [])
    else
      var a := Attempt(env.uid.value, stamp, true);
      Outcome(State(f.(uploading := true, attempt := Some(a)), s.vm), [PutFile(AttemptPath(a))])
  }

  /** What Storage reports for the attempt in flight (the put, or the download URL after it). */
  datatype UploadResult = Uploaded(url: string) | UploadFailed(failure: Failure)

  /**
   * The attempt's result: a URL is adopted and saved; a NOT_AUTHORIZED failure
   * of the first attempt retries under the events folder with no further
   * retry; any other failure saves the details without the photo.
   */
  function OnUpload(s: State, env: Env, r: UploadResult): (o: Outcome)
    ensures s.form.attempt.None? ==> o == Outcome(s, [])
    ensures s.form.attempt.Some? && r.Uploaded? ==> o == SaveWithImage(s, env, r.url)
    ensures s.form.attempt.Some? && r.UploadFailed? && s.form.attempt.value.allowFallback
            && r.failure.code == NotAuthorized ==>
      var a := s.form.attempt.value;
      o.state == s.(form := s.form.(attempt := Some(a.(allowFallback := false))))
      && o.effects == [PutFile(FallbackPath(a.uid, a.stamp))]
    ensures s.form.attempt.Some? && r.UploadFailed?
            && !(s.form.attempt.value.allowFallback && r.failure.code == NotAuthorized) ==>
      o == SaveWithoutImage(s, env, if r.failure.message.Some? then r.failure.message.value else UPLOAD_FAILED)
  {
    match s.form.attempt
    case None => Outcome(s, [])
    case Some(a) =>
      match r
      case Uploaded(url) => SaveWithImage(s, env, url)
      case UploadFailed(failure) =>
        if a.allowFallback && failure.code == NotAuthorized then
          var retry := a.(allowFallback := false);
          Outcome(s.(form := s.form.(attempt := Some(retry))), [PutFile(AttemptPath(retry))])
        else
          SaveWithoutImage(s, env, if failure.message.Some? then failure.message.value else UPLOAD_FAILED)
  }

  /** The save button is enabled iff nothing is saving, uploading or loading. */
  predicate SaveEnabled(f: Form, ui: ProfileVm.ProfileUi) {
    !ui.saving && !f.uploading && !ui.loading
  }

  /** The button shows a spinner while uploading, then "Saving..." while saving. */
  function SaveButtonText(f: Form, ui: ProfileVm.ProfileUi): (r: Option<string>)
    ensures r.None? <==> f.uploading
    ensures r.Some? ==> (r.value == SAVING <==> ui.saving)
  {
    if f.uploading then None else if ui.saving then Some(SAVING) else Some(SAVE_PROFILE)
  }

  /** The number of uploads among some effects. */
  function Puts(effects: seq<Effect>): nat {
    if effects == [] then 0 else (if effects[0].PutFile? then 1 else 0) + Puts(effects[1..])
  }

  lemma {:induction false} PutsAppend(a: seq<Effect>, b: seq<Effect>)
    ensures Puts(a + b) == Puts(a) + Puts(b)
  {
    if a == [] {
      assert a + b == b;
    } else {
      assert (a + b)[0] == a[0];
      assert (a + b)[1..] == a[1..] + b;
      PutsAppend(a[1..], b);
    }
  }

  /** A profile write is never an upload. */
  lemma SaveDetailsUploadsNothing(f: Form, vm: ProfileVm.State, env: Env, imageUrl: string)
    ensures Puts(SaveDetails(f, vm, env, imageUrl).effects) == 0
  {
    var e := SaveDetails(f, vm, env, imageUrl).effects;
    if e != [] {
      assert e[1..] == [];
    }
  }

  /** Storage results applied in order, with every effect they cause. */
  function Deliver(s: State, env: Env, results: seq<UploadResult>): Outcome
    decreases |results|
  {
    if results == [] then Outcome(s, [])
    else
      var first := OnUpload(s, env, results[0]);
      var rest := Deliver(first.state, env, results[1..]);
      Outcome(rest.state, first.effects + rest.effects)
  }

  /** The uploads a state may still start: one retry while the first attempt is in flight. */
  function RetriesLeft(f: Form): nat {
    if f.attempt.Some? && f.attempt.value.allowFallback then 1 else 0
  }

  /** Whatever Storage reports, no more uploads start than the retries left. */
  lemma {:induction false} RetriesBounded(s: State, env: Env, results: seq<UploadResult>)
    ensures Puts(Deliver(s, env, results).effects) <= RetriesLeft(s.form)
    decreases |results|
  {
    if results != [] {
      var first := OnUpload(s, env, results[0]);
      var rest := Deliver(first.state, env, results[1..]);
      RetriesBounded(first.state, env, results[1..]);
      PutsAppend(first.effects, rest.effects);
      match s.form.attempt
      case None =>
      case Some(a) =>
        match results[0]
        case Uploaded(url) =>
          SaveDetailsUploadsNothing(s.form.(uploading := false, imageUri := None, localImageUrl := url, attempt := None),
                                    s.vm, env, url);
        case UploadFailed(failure) =>
          if a.allowFallback && failure.code == NotAuthorized {
            assert Puts(first.effects) == 1 by {
              assert first.effects[1..] == [];
            }
          } else {
            var message := if failure.message.Some? then failure.message.value else UPLOAD_FAILED;
            SaveDetailsUploadsNothing(s.form.(uploading := false, localError := Some(message), attempt := None),
                                      s.vm, env, s.form.localImageUrl);
          }
    }
  }

  /** One click of save starts at most two uploads in all, the second only under the fallback path. */
  lemma AtMostTwoUploads(s: State, env: Env, stamp: int, results: seq<UploadResult>)
    ensures var clicked := Save(s, env, stamp);
      Puts(clicked.effects) + Puts(Deliver(clicked.state, env, results).effects) <= 2
  {
    var clicked := Save(s, env, stamp);
    RetriesBounded(clicked.state, env, results);
    if s.form.imageUri.None? {
      SaveDetailsUploadsNothing(s.form.(localError := None), s.vm, env, s.form.localImageUrl);
    } else if clicked.effects != [] {
      assert clicked.effects[1..] == [];
    }
  }
}
