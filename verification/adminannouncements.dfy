/**
 * `AdminPostAnnouncementScreen`: the announcement form, post versus update
 * by the edited id captured at the click, the `onDone` of each, and the
 * submit button.
 */
module AdminPostAnnouncementScreen {
  import opened Wrappers
  import opened Records
  import Text
  import AnnouncementVm
  import Navigation

  datatype Form = Form(title: string, message: string, editingId: Option<string>)

  const EMPTY_FORM: Form := Form("", "", None)

  /** Edit on an announcement's card. */
  function Edit(f: Form, a: Announcement): (r: Form)
    ensures r == Form(a.title, a.message, Some(a.id))
  {
    Form(a.title, a.message, Some(a.id))
  }

  /** Cancel Edit: both fields and the edited id are cleared. */
  function CancelEdit(f: Form): (r: Form)
    ensures r.title == "" && r.message == "" && r.editingId.None?
  {
    EMPTY_FORM
  }

  /** A submit: the view model's call and the id it was made for. */
  datatype Submitted = Submitted(vm: AnnouncementVm.Outcome, target: Option<string>)

  /**
   * Submit posts a new announcement when nothing is being edited and updates
   * the edited one otherwise.
   */
  function Submit(vm: AnnouncementVm.State, f: Form, uid: Option<string>, now: int): (r: Submitted)
    ensures r.target == f.editingId
    ensures f.editingId.None? && r.vm.effects != [] ==>
      uid.Some? && r.vm.effects == [AddDoc(AnnouncementVm.ANNOUNCEMENTS, AnnouncementVm.PostPayload(f.title, f.message, uid.value, now))]
    ensures f.editingId.Some? && r.vm.effects != [] ==>
      r.vm.effects == [UpdateDoc(AnnouncementVm.AnnouncementPath(f.editingId.value), AnnouncementVm.UpdatePayload(f.title, f.message))]
    ensures r.vm.effects == [] <==> Text.IsBlank(f.title) || Text.IsBlank(f.message) || (f.editingId.None? && uid.None?)
  {
    match f.editingId
    case None => Submitted(AnnouncementVm.Post(vm, f.title, f.message, uid, now), None)
    case Some(id) => Submitted(AnnouncementVm.Update(vm, id, f.title, f.message), Some(id))
  }

  /** The form after a write's `onDone`, and whether the screen goes back. */
  datatype Done = Done(form: Form, goBack: bool)

  /**
   * Only a successful write runs `onDone`: a post clears both fields and
   * leaves the screen; an update clears both fields and the edited id.
   */
  function OnDone(f: Form, target: Option<string>, c: Completion): (r: Done)
    ensures c.Failed? ==> r == Done(f, false)
    ensures c.Succeeded? ==> r.form.title == "" && r.form.message == ""
    ensures c.Succeeded? ==> (r.goBack <==> target.None?)
    ensures c.Succeeded? && target.Some? ==> r.form.editingId.None?
    ensures c.Succeeded? && target.None? ==> r.form.editingId == f.editingId
  {
    if c.Failed? then Done(f, false)
    else if target.None? then Done(f.(title := "", message := ""), true)
    else Done(EMPTY_FORM, false)
  }

  /** A successful post returns from the post screen to the admin dashboard. */
  lemma PostSuccessReturnsToDashboard(n: Navigation.Nav, f: Form)
    requires n.screen == Navigation.AdminPostAnnouncement
    ensures OnDone(f, None, Succeeded).goBack
    ensures Navigation.Step(n, Navigation.Back).nav.screen == Navigation.Admin
  {
  }

  /** After a successful update the next submit posts a new announcement. */
  lemma UpdateSuccessBackToPost(vm: AnnouncementVm.State, f: Form, id: string, uid: Option<string>, now: int)
    ensures Submit(vm, OnDone(f, Some(id), Succeeded).form, uid, now).target.None?
  {
  }

  /** The submit button works only while the view model is idle. */
  predicate SubmitEnabled(loading: bool) {
    !loading
  }

  function SubmitText(f: Form, loading: bool): (text: string)
    ensures loading ==> text == (if f.editingId.Some? then "Updating..." else "Posting...")
    ensures !loading ==> text == (if f.editingId.Some? then "Update" else "Post")
  {
    var editing := f.editingId.Some?;
    if loading then (if editing then "Updating..." else "Posting...") else (if editing then "Update" else "Post")
  }
}
