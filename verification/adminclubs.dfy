/**
 * `AdminClubsScreen`: the club form (on the shared image form), the calls its
 * actions make on `ClubViewModel`, the members toggle and the submit label.
 */
module AdminClubsScreen {
  import opened Wrappers
  import opened Records
  import ImageForm
  import Text
  import ClubVm

  datatype ClubDraft = ClubDraft(name: string, description: string)

  const EMPTY_DRAFT: ClubDraft := ClubDraft("", "")

  type ClubForm = ImageForm.Form<ClubDraft>

  /** Edit on a club's card. */
  function EditClub(f: ClubForm, c: Club): (r: ClubForm)
    ensures r.draft == ClubDraft(c.name, c.description) && r.existingImageUrl == c.imageUrl
    ensures r.picked.None? && r.editingId == Some(c.id)
  {
    ImageForm.Edit(f, ClubDraft(c.name, c.description), c.imageUrl, c.id)
  }

  /**
   * What a form action does to the view model: a save creates a club when no
   * club was being edited and updates the edited one otherwise, writing the
   * chosen URL; an upload is a Storage call; nothing else writes.
   */
  function Perform(vm: ClubVm.State, d: ClubDraft, a: ImageForm.Action, uid: Option<string>, now: int): (o: ClubVm.Outcome)
    ensures a.Nothing? ==> o == ClubVm.Outcome(vm, [])
    ensures a.StartUpload? ==> o == ClubVm.Outcome(vm, [PutFile(a.path)])
    ensures a.SaveNow? && a.target.None? && o.effects != [] ==>
      uid.Some? && o.effects == [AddDoc(ClubVm.CLUBS, ClubVm.CreateClubPayload(d.name, d.description, a.url, uid.value, now))]
    ensures a.SaveNow? && a.target.Some? && o.effects != [] ==>
      o.effects == [UpdateDoc(ClubVm.ClubPath(a.target.value), ClubVm.UpdateClubPayload(d.name, d.description, a.url))]
    ensures a.SaveNow? ==> (o.effects == [] <==> Text.IsBlank(d.name) || Text.IsBlank(d.description)
                                                 || (a.target.None? && uid.None?))
  {
    match a
    case Nothing => ClubVm.Outcome(vm, [])
    case StartUpload(path) => ClubVm.Outcome(vm, [PutFile(path)])
    case SaveNow(target, url) =>
      if target.None? then ClubVm.CreateClub(vm, d.name, d.description, url, uid, now)
      else ClubVm.UpdateClub(vm, target.value, d.name, d.description, url)
  }

  /**
   * Submitting without a picked image: an edited club keeps its current
   * image URL, a new club gets none.
   */
  lemma SubmitWithoutImage(vm: ClubVm.State, f: ClubForm, uid: string, now: int)
    requires f.picked.None?
    requires !Text.IsBlank(f.draft.name) && !Text.IsBlank(f.draft.description)
    ensures var o := Perform(vm, f.draft, ImageForm.Submit(ImageForm.Clubs, f, now).action, Some(uid), now);
      if f.editingId.Some? then
        o.effects == [UpdateDoc(ClubVm.ClubPath(f.editingId.value),
                                ClubVm.UpdateClubPayload(f.draft.name, f.draft.description, f.existingImageUrl))]
      else
        o.effects == [AddDoc(ClubVm.CLUBS, ClubVm.CreateClubPayload(f.draft.name, f.draft.description, "", uid, now))]
  {
  }

  /** A failed upload saves nothing. */
  lemma UploadFailureSavesNothing(vm: ClubVm.State, f: ClubForm, message: Option<string>, uid: Option<string>, now: int)
    ensures var step := ImageForm.OnUpload(f, ImageForm.UploadFailed(message));
      Perform(vm, step.form.draft, step.action, uid, now) == ClubVm.Outcome(vm, [])
  {
  }

  /** The members button: the first click expands a club, a click on the expanded one collapses it. */
  function ToggleExpanded(expanded: Option<string>, clubId: string): (r: Option<string>)
    ensures r == Some(clubId) <==> expanded != Some(clubId)
    ensures r.Some? ==> r == Some(clubId)
  {
    if expanded == Some(clubId) then None else Some(clubId)
  }

  datatype Toggled = Toggled(expanded: Option<string>, vm: ClubVm.Outcome)

  /** Expanding a club subscribes to its members; collapsing subscribes to nothing. */
  function ToggleMembers(vm: ClubVm.State, expanded: Option<string>, clubId: string): (r: Toggled)
    ensures r.expanded == ToggleExpanded(expanded, clubId)
    ensures r.expanded == Some(clubId) ==> r.vm == ClubVm.ListenMembers(vm, clubId)
    ensures r.expanded.None? ==> r.vm == ClubVm.Outcome(vm, [])
  {
    var next := ToggleExpanded(expanded, clubId);
    Toggled(next, if next == Some(clubId) then ClubVm.ListenMembers(vm, clubId) else ClubVm.Outcome(vm, []))
  }

  /** Two clicks on the same club leave it as it was before. */
  lemma ToggleTwice(expanded: Option<string>, clubId: string)
    ensures ToggleExpanded(ToggleExpanded(expanded, clubId), clubId) == (if expanded == Some(clubId) then expanded else None)
  {
  }

  /** The submit button's text. */
  function SubmitText(f: ClubForm, loading: bool): (text: string)
    ensures ImageForm.Uploading(f) ==> text == "Uploading..."
    ensures !ImageForm.Uploading(f) && loading ==> text == (if f.editingId.Some? then "Updating..." else "Publishing...")
    ensures ImageForm.SubmitEnabled(f, loading) ==> text == (if f.editingId.Some? then "Update Club" else "Publish Club")
  {
    match ImageForm.SubmitLabel(f, loading)
    case UploadingLabel => "Uploading..."
    case Working(editing) => if editing then "Updating..." else "Publishing..."
    case Idle(editing) => if editing then "Update Club" else "Publish Club"
  }
}
