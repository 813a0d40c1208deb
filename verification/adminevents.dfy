/**
 * `AdminEventsScreen`: the event form (on the shared image form), the calls
 * its actions make on `EventViewModel` and the submit label.
 */
module AdminEventsScreen {
  import opened Wrappers
  import opened Records
  import ImageForm
  import EventVm

  datatype EventDraft = EventDraft(title: string, date: string, venue: string, description: string)

  const EMPTY_DRAFT: EventDraft := EventDraft("", "", "", "")

  type EventForm = ImageForm.Form<EventDraft>

  /** Edit on an event's card. */
  function EditEvent(f: EventForm, e: Event): (r: EventForm)
    ensures r.draft == EventDraft(e.title, e.date, e.venue, e.description) && r.existingImageUrl == e.imageUrl
    ensures r.picked.None? && r.editingId == Some(e.id)
  {
    ImageForm.Edit(f, EventDraft(e.title, e.date, e.venue, e.description), e.imageUrl, e.id)
  }

  predicate DraftBlank(d: EventDraft) {
    EventVm.AnyBlank(d.title, d.date, d.venue, d.description)
  }

  /**
   * What a form action does to the view model: a save creates an event when
   * none was being edited and updates the edited one otherwise, writing the
   * chosen URL; an upload is a Storage call; nothing else writes.
   */
  function Perform(vm: EventVm.State, d: EventDraft, a: ImageForm.Action, uid: Option<string>, now: int): (o: EventVm.Outcome)
    ensures a.Nothing? ==> o == EventVm.Outcome(vm, [])
    ensures a.StartUpload? ==> o == EventVm.Outcome(vm, [PutFile(a.path)])
    ensures a.SaveNow? && a.target.None? && o.effects != [] ==>
      uid.Some? && o.effects == [AddDoc(EventVm.EVENTS, EventVm.CreateEventPayload(d.title, d.date, d.venue, d.description, a.url, uid.value, now))]
    ensures a.SaveNow? && a.target.Some? && o.effects != [] ==>
      o.effects == [UpdateDoc(EventVm.EventPath(a.target.value), EventVm.UpdateEventPayload(d.title, d.date, d.venue, d.description, a.url))]
    ensures a.SaveNow? ==> (o.effects == [] <==> DraftBlank(d) || (a.target.None? && uid.None?))
  {
    match a
    case Nothing => EventVm.Outcome(vm, [])
    case StartUpload(path) => EventVm.Outcome(vm, [PutFile(path)])
    case SaveNow(target, url) =>
      if target.None? then EventVm.CreateEvent(vm, d.title, d.date, d.venue, d.description, url, uid, now)
      else EventVm.UpdateEvent(vm, target.value, d.title, d.date, d.venue, d.description, url)
  }

  /**
   * Submitting without a picked image: an edited event keeps its current
   * image URL, a new event gets none.
   */
  lemma SubmitWithoutImage(vm: EventVm.State, f: EventForm, uid: string, now: int)
    requires f.picked.None? && !DraftBlank(f.draft)
    ensures var d := f.draft;
      var o := Perform(vm, d, ImageForm.Submit(ImageForm.Events, f, now).action, Some(uid), now);
      if f.editingId.Some? then
        o.effects == [UpdateDoc(EventVm.EventPath(f.editingId.value),
                                EventVm.UpdateEventPayload(d.title, d.date, d.venue, d.description, f.existingImageUrl))]
      else
        o.effects == [AddDoc(EventVm.EVENTS, EventVm.CreateEventPayload(d.title, d.date, d.venue, d.description, "", uid, now))]
  {
  }

  /** A new event's upload and an edited event's upload go to different places under "events/". */
  lemma UploadPaths(f: EventForm, p: ImageForm.Picked, now: int)
    requires f.picked == Some(p)
    ensures var a := ImageForm.Submit(ImageForm.Events, f, now).action;
      a == ImageForm.StartUpload(ImageForm.StoragePath(ImageForm.Events, f.editingId, p, now))
  {
  }

  /** The submit button's text. */
  function SubmitText(f: EventForm, loading: bool): (text: string)
    ensures ImageForm.Uploading(f) ==> text == "Uploading..."
    ensures !ImageForm.Uploading(f) && loading ==> text == (if f.editingId.Some? then "Updating..." else "Publishing...")
    ensures ImageForm.SubmitEnabled(f, loading) ==> text == (if f.editingId.Some? then "Update Event" else "Publish Event")
  {
    match ImageForm.SubmitLabel(f, loading)
    case UploadingLabel => "Uploading..."
    case Working(editing) => if editing then "Updating..." else "Publishing..."
    case Idle(editing) => if editing then "Update Event" else "Publish Event"
  }
}
