/**
 * The create/edit form shared by the admin club and event screens: the
 * draft texts, an optional picked image, the image URL of the item being
 * edited and the edited id. Submitting saves at once without a picked image;
 * with one it first uploads to Storage and saves with the download URL,
 * for the target captured at the click.
 */
module ImageForm {
  import opened Wrappers
  import Decimal

  /** The picked content URI; only its last path segment matters here. */
  datatype Picked = Picked(lastPathSegment: Option<string>)

  /** Which items the form edits. */
  datatype Kind = Clubs | Events

  /** The Storage folder of the kind. */
  function Folder(k: Kind): string {
    match k
    case Clubs => "clubs"
    case Events => "events"
  }

  /** The image's name: the fallback segment of a new item and the prefix of an edited one. */
  function ImageName(k: Kind): string {
    match k
    case Clubs => "cover"
    case Events => "poster"
  }

  /**
   * The form. `inFlight` holds, while an upload runs, the id that was being
   * edited when submit was clicked (`None` for a new item): the source's
   * `uploading` flag is `inFlight.Some?`.
   */
  datatype Form<D> = Form(
    draft: D,
    picked: Option<Picked>,
    existingImageUrl: string,
    editingId: Option<string>,
    localError: Option<string>,
    inFlight: Option<Option<string>>)

  function Initial<D>(empty: D): (f: Form<D>)
    ensures f.draft == empty && f.picked.None? && f.existingImageUrl == "" && f.editingId.None?
    ensures f.localError.None? && f.inFlight.None?
  {
    Form(empty, None, "", None, None, None)
  }

  predicate Uploading<D>(f: Form<D>) {
    f.inFlight.Some?
  }

  /** Edit: the item's texts and image URL, no picked image, and its id. */
  function Edit<D>(f: Form<D>, values: D, imageUrl: string, id: string): (r: Form<D>)
    ensures r.draft == values && r.picked.None? && r.existingImageUrl == imageUrl && r.editingId == Some(id)
    ensures r.localError == f.localError && r.inFlight == f.inFlight
  {
    f.(draft := values, picked := None, existingImageUrl := imageUrl, editingId := Some(id))
  }

  /** Cancel Edit: every field empty and no edited id. */
  function CancelEdit<D>(f: Form<D>, empty: D): (r: Form<D>)
    ensures r.draft == empty && r.picked.None? && r.existingImageUrl == "" && r.editingId.None?
    ensures r.localError == f.localError && r.inFlight == f.inFlight
  {
    f.(draft := empty, picked := None, existingImageUrl := "", editingId := None)
  }

  /** The image picker: a chosen image replaces the previous one. */
  function Pick<D>(f: Form<D>, p: Picked): (r: Form<D>)
    ensures r.picked == Some(p)
    ensures r.(picked := f.picked) == f
  {
    f.(picked := Some(p))
  }

  /** `clearForm`: the texts and the image go; the edited id stays. */
  function Cleared<D>(f: Form<D>, empty: D): (r: Form<D>)
    ensures r.draft == empty && r.picked.None? && r.existingImageUrl == ""
    ensures r.editingId == f.editingId && r.localError == f.localError && r.inFlight == f.inFlight
  {
    f.(draft := empty, picked := None, existingImageUrl := "")
  }

  /** The path inside the kind's folder. */
  function InFolder(k: Kind, target: Option<string>, p: Picked, now: int): string {
    match target
    case None =>
      Decimal.LongToString(now) + "_" + (if p.lastPathSegment.Some? then p.lastPathSegment.value else ImageName(k)) + ".jpg"
    case Some(id) => id + "/" + ImageName(k) + "_" + Decimal.LongToString(now) + ".jpg"
  }

  /**
   * The Storage path: a new item's image is named by the time and the picked
   * file's last segment (or the image name); an edited item's lives in a
   * folder named by its id.
   */
  function StoragePath(k: Kind, target: Option<string>, p: Picked, now: int): (path: string)
    ensures target.None? ==>
      path == Folder(k) + "/" + (Decimal.LongToString(now) + "_"
              + (if p.lastPathSegment.Some? then p.lastPathSegment.value else ImageName(k)) + ".jpg")
    ensures target.Some? ==>
      path == Folder(k) + "/" + (target.value + "/" + ImageName(k) + "_" + Decimal.LongToString(now) + ".jpg")
  {
    Folder(k) + "/" + InFolder(k, target, p, now)
  }

  /** Every image lands under its kind's folder. */
  lemma PathUnderFolder(k: Kind, target: Option<string>, p: Picked, now: int)
    ensures var path := StoragePath(k, target, p, now);
      |path| > |Folder(k)| && path[..|Folder(k)| + 1] == Folder(k) + "/"
  {
    var prefix := Folder(k) + "/";
    assert StoragePath(k, target, p, now) == prefix + InFolder(k, target, p, now);
    assert (prefix + InFolder(k, target, p, now))[..|prefix|] == prefix;
  }

  /** What a form event asks of the view model and of Storage. */
  datatype Action =
    | Nothing
    | SaveNow(target: Option<string>, url: string)   // createX when `target` is None, else updateX(target)
    | StartUpload(path: string)                       // putFile, then downloadUrl

  datatype Step<D> = Step(form: Form<D>, action: Action)

  /**
   * Submit: the error is cleared; with no picked image the item is saved at
   * once (a new one with no image, an edited one with its current image);
   * otherwise the upload starts for the edited id.
   */
  function Submit<D>(k: Kind, f: Form<D>, now: int): (r: Step<D>)
    ensures f.picked.None? ==>
      r.form == f.(localError := None)
      && r.action == SaveNow(f.editingId, if f.editingId.None? then "" else f.existingImageUrl)
    ensures f.picked.Some? ==>
      r.form == f.(localError := None, inFlight := Some(f.editingId))
      && r.action == StartUpload(StoragePath(k, f.editingId, f.picked.value, now))
  {
    var g := f.(localError := None);
    match f.picked
    case None => Step(g, SaveNow(f.editingId, if f.editingId.None? then "" else f.existingImageUrl))
    case Some(p) => Step(g.(inFlight := Some(f.editingId)), StartUpload(StoragePath(k, f.editingId, p, now)))
  }

  /** What Storage reports for the upload: the download URL, or the failure's (nullable) message. */
  datatype UploadResult = Uploaded(url: string) | UploadFailed(message: Option<string>)

  /**
   * The upload's end: uploading stops; a URL is saved for the target captured
   * at the click; a failure shows its message and saves nothing.
   */
  function OnUpload<D>(f: Form<D>, result: UploadResult): (r: Step<D>)
    ensures !Uploading(r.form)
    ensures f.inFlight.None? ==> r == Step(f, Nothing)
    ensures f.inFlight.Some? && result.Uploaded? ==>
      r == Step(f.(inFlight := None), SaveNow(f.inFlight.value, result.url))
    ensures f.inFlight.Some? && result.UploadFailed? ==>
      r == Step(f.(inFlight := None, localError := result.message), Nothing)
  {
    match f.inFlight
    case None => Step(f, Nothing)
    case Some(target) =>
      match result
      case Uploaded(url) => Step(f.(inFlight := None), SaveNow(target, url))
      case UploadFailed(message) => Step(f.(inFlight := None, localError := message), Nothing)
  }

  /**
   * The save's `onDone`, which only a successful write runs: the form is
   * cleared, and after an update the form also leaves edit mode.
   */
  function OnSaved<D>(f: Form<D>, target: Option<string>, succeeded: bool, empty: D): (r: Form<D>)
    ensures !succeeded ==> r == f
    ensures succeeded ==> r.draft == empty && r.picked.None? && r.existingImageUrl == ""
    ensures succeeded && target.Some? ==> r.editingId.None?
    ensures succeeded && target.None? ==> r.editingId == f.editingId
    ensures r.localError == f.localError && r.inFlight == f.inFlight
  {
    if !succeeded then f
    else if target.None? then Cleared(f, empty)
    else Cleared(f, empty).(editingId := None)
  }

  /** The submit button is enabled iff the view model is idle and nothing uploads. */
  predicate SubmitEnabled<D>(f: Form<D>, loading: bool) {
    !loading && !Uploading(f)
  }

  /** The label's state: uploading first, then the view model's work, then idle. */
  datatype Label = UploadingLabel | Working(editing: bool) | Idle(editing: bool)

  function SubmitLabel<D>(f: Form<D>, loading: bool): (l: Label)
    ensures l == UploadingLabel <==> Uploading(f)
    ensures l.Working? <==> !Uploading(f) && loading
    ensures l.Idle? <==> SubmitEnabled(f, loading)
    ensures !l.UploadingLabel? ==> l.editing == f.editingId.Some?
  {
    if Uploading(f) then UploadingLabel
    else if loading then Working(f.editingId.Some?)
    else Idle(f.editingId.Some?)
  }

  /* ---------- Properties across events ---------- */

  /** Editing and then cancelling leaves the same form as cancelling straight away. */
  lemma CancelForgetsEdit<D>(f: Form<D>, values: D, imageUrl: string, id: string, empty: D)
    ensures CancelEdit(Edit(f, values, imageUrl, id), empty) == CancelEdit(f, empty)
  {
  }

  /**
   * The upload saves for the item being edited at the click, even if the
   * admin has since started editing another item or cancelled.
   */
  lemma UploadKeepsClickTarget<D>(k: Kind, f: Form<D>, now: int, values: D, imageUrl: string, id: string, url: string)
    requires f.picked.Some?
    ensures OnUpload(Edit(Submit(k, f, now).form, values, imageUrl, id), Uploaded(url)).action
            == SaveNow(f.editingId, url)
  {
  }

  /** After a successful update the next submit without an image creates a new item with no image. */
  lemma UpdateSuccessBackToCreate<D>(k: Kind, f: Form<D>, id: string, empty: D, now: int)
    ensures Submit(k, OnSaved(f, Some(id), true, empty), now).action == SaveNow(None, "")
  {
  }
}
