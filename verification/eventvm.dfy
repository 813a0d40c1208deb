/**
 * `EventViewModel`: the events listener and its mapping defaults, create,
 * update and delete with their validation and payloads, the registered-event
 * id set, registration and cancellation with their failure messages, and
 * `clearError`.
 */
module EventVm {
  import opened Wrappers
  import opened Records
  import Text
  import Lists
  import Int32

  const ALL_FIELDS_REQUIRED: string := "All fields are required"
  const NOT_LOGGED_IN: string := "Not logged in"
  const REGISTRATION_BLOCKED: string :=
    "Registration blocked by Firestore rules. Please update permissions for users/{uid}/event_registrations."
  const REGISTRATION_FAILED: string := "Failed to register for event."
  const CANCELLATION_BLOCKED: string := "Cancellation blocked by Firestore rules."
  const CANCELLATION_FAILED: string := "Failed to cancel registration."

  const EVENTS: string := "events"

  function EventPath(id: string): string {
    "events/" + id
  }

  function RegistrationsQuery(uid: string): string {
    "users/" + uid + "/event_registrations"
  }

  function RegistrationPath(uid: string, eventId: string): string {
    RegistrationsQuery(uid) + "/" + eventId
  }

  datatype State = State(
    ui: UiState,
    events: seq<Event>,
    registeredEventIds: set<string>,
    startedListening: bool,
    startedMyRegistrations: bool)

  function Initial(): State {
    State(UiState(false, None), [], {}, false, false)
  }

  datatype Outcome = Outcome(state: State, effects: seq<Effect>)

  /* ---------- Reading documents ---------- */

  /**
   * The event mapping. Missing texts read as "", a missing count as 0, and the
   * stored Long count is narrowed with `toInt()`, which wraps.
   */
  function EventOf(d: Doc): (e: Event)
    ensures e.id == d.id && e.createdAt == GetTimestamp(d, CreatedAt)
    ensures Int32.InRange(e.registrationCount)
    ensures GetLong(d, RegistrationCount).None? ==> e.registrationCount == 0
    ensures GetLong(d, RegistrationCount).Some? && Int32.InRange(GetLong(d, RegistrationCount).value) ==>
              e.registrationCount == GetLong(d, RegistrationCount).value
    ensures GetString(d, Title).None? ==> e.title == ""
    ensures GetString(d, Title).Some? ==> e.title == GetString(d, Title).value
    ensures GetString(d, Date).None? ==> e.date == ""
    ensures GetString(d, Date).Some? ==> e.date == GetString(d, Date).value
    ensures GetString(d, Venue).None? ==> e.venue == ""
    ensures GetString(d, Venue).Some? ==> e.venue == GetString(d, Venue).value
    ensures GetString(d, Description).None? ==> e.description == ""
    ensures GetString(d, Description).Some? ==> e.description == GetString(d, Description).value
    ensures GetString(d, ImageUrl).None? ==> e.imageUrl == ""
    ensures GetString(d, ImageUrl).Some? ==> e.imageUrl == GetString(d, ImageUrl).value
    ensures GetString(d, CreatedBy).None? ==> e.createdBy == ""
    ensures GetString(d, CreatedBy).Some? ==> e.createdBy == GetString(d, CreatedBy).value
  {
    Event(d.id,
          GetString(d, Title).GetOr(""),
          GetString(d, Date).GetOr(""),
          GetString(d, Venue).GetOr(""),
          GetString(d, Description).GetOr(""),
          GetString(d, ImageUrl).GetOr(""),
          Int32.Wrap(GetLong(d, RegistrationCount).GetOr(0)),
          GetTimestamp(d, CreatedAt),
          GetString(d, CreatedBy).GetOr(""))
  }

  /* ---------- Listeners ---------- */

  /** `listenEvents`: one-shot. */
  function ListenEvents(s: State): (o: Outcome)
    ensures o.state.startedListening
    ensures s.startedListening ==> o == Outcome(s, [])
    ensures !s.startedListening ==> o.state.ui == UiState(true, None) && o.effects == [Listen(EVENTS)]
    ensures o.state.(ui := s.ui, startedListening := s.startedListening) == s
  {
    if s.startedListening then Outcome(s, [])
    else Outcome(s.(startedListening := true, ui := UiState(true, None)), [Listen(EVENTS)])
  }

  function OnEvents(s: State, docs: seq<Doc>): (r: State)
    ensures |r.events| == |docs|
    ensures forall i :: 0 <= i < |docs| ==> r.events[i] == EventOf(docs[i])
    ensures r.ui == UiState(false, None)
    ensures r.(events := s.events, ui := s.ui) == s
  {
    s.(events := Lists.Map(docs, EventOf), ui := UiState(false, None))
  }

  function OnEventsFailed(s: State, message: Option<string>): (r: State)
    ensures r == s.(ui := UiState(false, message))
  {
    s.(ui := UiState(false, message))
  }

  /**
   * `listenMyEventRegistrations`: the started flag is set before the login
   * check, so a call without a user empties the set and no later call listens.
   */
  function ListenMyRegistrations(s: State, uid: Option<string>): (o: Outcome)
    ensures o.state.startedMyRegistrations
    ensures s.startedMyRegistrations ==> o == Outcome(s, [])
    ensures !s.startedMyRegistrations && uid.None? ==>
      o == Outcome(s.(startedMyRegistrations := true, registeredEventIds := {}), [])
    ensures !s.startedMyRegistrations && uid.Some? ==>
      o == Outcome(s.(startedMyRegistrations := true), [Listen(RegistrationsQuery(uid.value))])
  {
    if s.startedMyRegistrations then Outcome(s, [])
    else if uid.None? then Outcome(s.(startedMyRegistrations := true, registeredEventIds := {}), [])
    else Outcome(s.(startedMyRegistrations := true), [Listen(RegistrationsQuery(uid.value))])
  }

  /** A registrations snapshot: the set is exactly the document ids. */
  function OnRegistrations(s: State, docs: seq<Doc>): (r: State)
    ensures forall id :: id in r.registeredEventIds <==> exists i :: 0 <= i < |docs| && docs[i].id == id
    ensures r.(registeredEventIds := s.registeredEventIds) == s
  {
    s.(registeredEventIds := set i | 0 <= i < |docs| :: docs[i].id)
  }

  /**
   * A failing registrations listener: permission denied empties the set and
   * leaves the UI alone; anything else replaces the UI state with the message.
   */
  function OnRegistrationsFailed(s: State, f: Failure): (r: State)
    ensures f.code == PermissionDenied ==> r == s.(registeredEventIds := {})
    ensures f.code != PermissionDenied ==> r == s.(ui := UiState(false, f.message))
  {
    if f.code == PermissionDenied then s.(registeredEventIds := {})
    else s.(ui := UiState(false, f.message))
  }

  /* ---------- Writes ---------- */

  predicate AnyBlank(title: string, date: string, venue: string, description: string) {
    Text.IsBlank(title) || Text.IsBlank(date) || Text.IsBlank(venue) || Text.IsBlank(description)
  }

  /** The five text fields of an event, as written. */
  function EventTexts(title: string, date: string, venue: string, description: string, imageUrl: string): (p: Payload)
    ensures p.Keys == {Title, Date, Venue, Description, ImageUrl}
    ensures p[Title] == Str(title) && p[Date] == Str(date) && p[Venue] == Str(venue)
    ensures p[Description] == Str(description) && p[ImageUrl] == Str(imageUrl)
  {
    map[Title := Str(title), Date := Str(date), Venue := Str(venue), Description := Str(description), ImageUrl := Str(imageUrl)]
  }

  /** The texts plus a zero count, the creation time and the author. */
  function NewEventFields(title: string, date: string, venue: string, description: string, imageUrl: string, uid: string, now: int): (p: Payload)
    ensures p.Keys == {Title, Date, Venue, Description, ImageUrl, RegistrationCount, CreatedAt, CreatedBy}
    ensures p[RegistrationCount] == Num(0) && p[CreatedAt] == Time(now) && p[CreatedBy] == Str(uid)
  {
    EventTexts(title, date, venue, description, imageUrl)[RegistrationCount := Num(0)][CreatedAt := Time(now)][CreatedBy := Str(uid)]
  }

  /** The fields `createEvent` writes: trimmed texts, a zero count, the time and the author. */
  function CreateEventPayload(title: string, date: string, venue: string, description: string, imageUrl: string, uid: string, now: int): (p: Payload)
    ensures p.Keys == {Title, Date, Venue, Description, ImageUrl, RegistrationCount, CreatedAt, CreatedBy}
    ensures p[RegistrationCount] == Num(0)
  {
    NewEventFields(Text.Trim(title), Text.Trim(date), Text.Trim(venue), Text.Trim(description), Text.Trim(imageUrl), uid, now)
  }

  /** The fields `updateEvent` writes: exactly the five trimmed texts. */
  function UpdateEventPayload(title: string, date: string, venue: string, description: string, imageUrl: string): (p: Payload)
    ensures p.Keys == {Title, Date, Venue, Description, ImageUrl}
    ensures forall f :: f in p ==> p[f].Str? && Text.IsTrimmed(p[f].s)
  {
    var t, d, v, de, im := Text.Trim(title), Text.Trim(date), Text.Trim(venue), Text.Trim(description), Text.Trim(imageUrl);
    TrimmedTexts(t, d, v, de, im);
    EventTexts(t, d, v, de, im)
  }

  lemma TrimmedTexts(title: string, date: string, venue: string, description: string, imageUrl: string)
    requires Text.IsTrimmed(title) && Text.IsTrimmed(date) && Text.IsTrimmed(venue)
    requires Text.IsTrimmed(description) && Text.IsTrimmed(imageUrl)
    ensures var p := EventTexts(title, date, venue, description, imageUrl);
      forall f :: f in p ==> p[f].Str? && Text.IsTrimmed(p[f].s)
  {
  }

  lemma EventFromFields(id: string, title: string, date: string, venue: string, description: string, imageUrl: string, uid: string, now: int)
    ensures EventOf(Doc(id, NewEventFields(title, date, venue, description, imageUrl, uid, now)))
         == Event(id, title, date, venue, description, imageUrl, 0, Some(now), uid)
  {
  }

  /** A created event reads back with its trimmed texts, no registrations, its time and author. */
  lemma CreatedEventReadsBack(id: string, title: string, date: string, venue: string, description: string, imageUrl: string, uid: string, now: int)
    ensures EventOf(Added(id, CreateEventPayload(title, date, venue, description, imageUrl, uid, now)))
         == Event(id, Text.Trim(title), Text.Trim(date), Text.Trim(venue), Text.Trim(description), Text.Trim(imageUrl), 0, Some(now), uid)
  {
    EventFromFields(id, Text.Trim(title), Text.Trim(date), Text.Trim(venue), Text.Trim(description), Text.Trim(imageUrl), uid, now);
  }

  lemma EventUpdatedFields(d: Doc, title: string, date: string, venue: string, description: string, imageUrl: string)
    ensures EventOf(Merge(d, EventTexts(title, date, venue, description, imageUrl)))
         == EventOf(d).(title := title, date := date, venue := venue, description := description, imageUrl := imageUrl)
  {
    var m := Merge(d, EventTexts(title, date, venue, description, imageUrl));
    assert GetLong(m, RegistrationCount) == GetLong(d, RegistrationCount);
    assert GetTimestamp(m, CreatedAt) == GetTimestamp(d, CreatedAt);
    assert GetString(m, CreatedBy) == GetString(d, CreatedBy);
  }

  /** An update never touches the registration count, the creation time or the author. */
  lemma UpdatedEventReadsBack(d: Doc, title: string, date: string, venue: string, description: string, imageUrl: string)
    ensures EventOf(Merge(d, UpdateEventPayload(title, date, venue, description, imageUrl)))
         == EventOf(d).(title := Text.Trim(title), date := Text.Trim(date), venue := Text.Trim(venue),
                        description := Text.Trim(description), imageUrl := Text.Trim(imageUrl))
  {
    EventUpdatedFields(d, Text.Trim(title), Text.Trim(date), Text.Trim(venue), Text.Trim(description), Text.Trim(imageUrl));
  }

  /** `createEvent`: any blank required text first, then the user; otherwise one added document. */
  function CreateEvent(s: State, title: string, date: string, venue: string, description: string, imageUrl: string,
                       uid: Option<string>, now: int): (o: Outcome)
    ensures AnyBlank(title, date, venue, description) ==> o == Outcome(s.(ui := UiState(false, Some(ALL_FIELDS_REQUIRED))), [])
    ensures !AnyBlank(title, date, venue, description) && uid.None? ==> o == Outcome(s.(ui := UiState(false, Some(NOT_LOGGED_IN))), [])
    ensures o.effects != [] <==> !AnyBlank(title, date, venue, description) && uid.Some?
    ensures o.effects != [] ==>
      o.state == s.(ui := UiState(true, None))
      && o.effects == [AddDoc(EVENTS, CreateEventPayload(title, date, venue, description, imageUrl, uid.value, now))]
  {
    if AnyBlank(title, date, venue, description) then Outcome(s.(ui := UiState(false, Some(ALL_FIELDS_REQUIRED))), [])
    else if uid.None? then Outcome(s.(ui := UiState(false, Some(NOT_LOGGED_IN))), [])
    else Outcome(s.(ui := UiState(true, None)), [AddDoc(EVENTS, CreateEventPayload(title, date, venue, description, imageUrl, uid.value, now))])
  }

  /** `updateEvent`: the same text check, no login check, one update. */
  function UpdateEvent(s: State, id: string, title: string, date: string, venue: string, description: string, imageUrl: string): (o: Outcome)
    ensures AnyBlank(title, date, venue, description) ==> o == Outcome(s.(ui := UiState(false, Some(ALL_FIELDS_REQUIRED))), [])
    ensures !AnyBlank(title, date, venue, description) ==>
      o == Outcome(s.(ui := UiState(true, None)), [UpdateDoc(EventPath(id), UpdateEventPayload(title, date, venue, description, imageUrl))])
  {
    if AnyBlank(title, date, venue, description) then Outcome(s.(ui := UiState(false, Some(ALL_FIELDS_REQUIRED))), [])
    else Outcome(s.(ui := UiState(true, None)), [UpdateDoc(EventPath(id), UpdateEventPayload(title, date, venue, description, imageUrl))])
  }

  function DeleteEvent(s: State, id: string): (o: Outcome)
    ensures o == Outcome(s.(ui := UiState(true, None)), [DeleteDoc(EventPath(id))])
  {
    Outcome(s.(ui := UiState(true, None)), [DeleteDoc(EventPath(id))])
  }

  /** Create, update and delete completions: loading ends; failure shows the message. */
  function Complete(s: State, c: Completion): (r: State)
    ensures r.ui == AfterWrite(c)
    ensures r.(ui := s.ui) == s
  {
    s.(ui := AfterWrite(c))
  }

  /* ---------- Registration ---------- */

  /** `registerForEvent`, first step: the user is required; the profile is fetched. */
  function Register(s: State, uid: Option<string>): (o: Outcome)
    ensures uid.None? ==> o == Outcome(s.(ui := UiState(false, Some(NOT_LOGGED_IN))), [])
    ensures uid.Some? ==> o == Outcome(s.(ui := UiState(true, None)), [FetchDoc("users/" + uid.value)])
  {
    if uid.None? then Outcome(s.(ui := UiState(false, Some(NOT_LOGGED_IN))), [])
    else Outcome(s.(ui := UiState(true, None)), [FetchDoc("users/" + uid.value)])
  }

  /**
   * The registration record. `profile` is the fetched user document, or None
   * when the fetch failed; the email falls back to the signed-in account's.
   */
  function RegistrationPayload(uid: string, eventId: string, profile: Option<Doc>, authEmail: Option<string>, now: int): (p: Payload)
    ensures p.Keys == {Uid, EventId, Name, Email, ProfileImageUrl, RegisteredAt}
    ensures p[Uid] == Str(uid) && p[EventId] == Str(eventId) && p[RegisteredAt] == Time(now)
    ensures profile.None? ==> p[Name] == Str("") && p[ProfileImageUrl] == Str("") && p[Email] == Str(Text.OrEmpty(authEmail))
    ensures profile.Some? && GetString(profile.value, Name).Some? ==> p[Name] == Str(GetString(profile.value, Name).value)
    ensures profile.Some? && GetString(profile.value, Name).None? ==> p[Name] == Str("")
    ensures profile.Some? && GetString(profile.value, Email).Some? ==> p[Email] == Str(GetString(profile.value, Email).value)
    ensures profile.Some? && GetString(profile.value, Email).None? ==> p[Email] == Str(Text.OrEmpty(authEmail))
    ensures profile.Some? && GetString(profile.value, ProfileImageUrl).Some? ==>
      p[ProfileImageUrl] == Str(GetString(profile.value, ProfileImageUrl).value)
    ensures profile.Some? && GetString(profile.value, ProfileImageUrl).None? ==> p[ProfileImageUrl] == Str("")
  {
    match profile
    case None =>
      map[Uid := Str(uid), EventId := Str(eventId), Name := Str(""), Email := Str(Text.OrEmpty(authEmail)),
          ProfileImageUrl := Str(""), RegisteredAt := Time(now)]
    case Some(d) =>
      map[Uid := Str(uid), EventId := Str(eventId),
          Name := Str(GetString(d, Name).GetOr("")),
          Email := Str(GetString(d, Email).GetOr(Text.OrEmpty(authEmail))),
          ProfileImageUrl := Str(GetString(d, ProfileImageUrl).GetOr("")),
          RegisteredAt := Time(now)]
  }

  /** A failed profile fetch writes the same record as a fetched profile with no fields. */
  lemma FetchFailureLikeEmptyProfile(uid: string, eventId: string, profileId: string, authEmail: Option<string>, now: int)
    ensures RegistrationPayload(uid, eventId, None, authEmail, now)
         == RegistrationPayload(uid, eventId, Some(Doc(profileId, map[])), authEmail, now)
  {
  }

  /** `registerForEvent`, second step: the record is set at the user's registration path. */
  function RegistrationWrite(uid: string, eventId: string, profile: Option<Doc>, authEmail: Option<string>, now: int): (e: Effect)
    ensures e.SetDoc? && e.path == RegistrationPath(uid, eventId) && !e.merge
  {
    SetDoc(RegistrationPath(uid, eventId), RegistrationPayload(uid, eventId, profile, authEmail, now), false)
  }

  /** A permission-denied failure gets the fixed text, any other its message or the default. */
  function FailureText(f: Failure, blocked: string, fallback: string): (m: string)
    ensures f.code == PermissionDenied ==> m == blocked
    ensures f.code != PermissionDenied && f.message.Some? ==> m == f.message.value
    ensures f.code != PermissionDenied && f.message.None? ==> m == fallback
  {
    if f.code == PermissionDenied then blocked else f.message.GetOr(fallback)
  }

  /** The registration write completed: success adds the id, failure keeps the set. */
  function OnRegistered(s: State, eventId: string, c: Completion): (r: State)
    ensures !r.ui.loading
    ensures c.Succeeded? ==> r.registeredEventIds == s.registeredEventIds + {eventId} && r.ui.error.None?
    ensures c.Failed? ==> r.registeredEventIds == s.registeredEventIds
                          && r.ui.error == Some(FailureText(c.failure, REGISTRATION_BLOCKED, REGISTRATION_FAILED))
    ensures r.(ui := s.ui, registeredEventIds := s.registeredEventIds) == s
  {
    match c
    case Succeeded => s.(registeredEventIds := s.registeredEventIds + {eventId}, ui := UiState(false, None))
    case Failed(f) => s.(ui := UiState(false, Some(FailureText(f, REGISTRATION_BLOCKED, REGISTRATION_FAILED))))
  }

  /** `cancelEventRegistration`: the user is required; the registration is deleted. */
  function Cancel(s: State, eventId: string, uid: Option<string>): (o: Outcome)
    ensures uid.None? ==> o == Outcome(s.(ui := UiState(false, Some(NOT_LOGGED_IN))), [])
    ensures uid.Some? ==> o == Outcome(s.(ui := UiState(true, None)), [DeleteDoc(RegistrationPath(uid.value, eventId))])
  {
    if uid.None? then Outcome(s.(ui := UiState(false, Some(NOT_LOGGED_IN))), [])
    else Outcome(s.(ui := UiState(true, None)), [DeleteDoc(RegistrationPath(uid.value, eventId))])
  }

  /** The cancellation completed: success removes only this id. */
  function OnCancelled(s: State, eventId: string, c: Completion): (r: State)
    ensures !r.ui.loading
    ensures c.Succeeded? ==> r.registeredEventIds == s.registeredEventIds - {eventId} && r.ui.error.None?
    ensures c.Failed? ==> r.registeredEventIds == s.registeredEventIds
                          && r.ui.error == Some(FailureText(c.failure, CANCELLATION_BLOCKED, CANCELLATION_FAILED))
    ensures r.(ui := s.ui, registeredEventIds := s.registeredEventIds) == s
  {
    match c
    case Succeeded => s.(registeredEventIds := s.registeredEventIds - {eventId}, ui := UiState(false, None))
    case Failed(f) => s.(ui := UiState(false, Some(FailureText(f, CANCELLATION_BLOCKED, CANCELLATION_FAILED))))
  }

  /** Registering twice leaves the same set as registering once. */
  lemma RegisterIdempotent(s: State, eventId: string)
    ensures var once := OnRegistered(s, eventId, Succeeded);
      OnRegistered(once, eventId, Succeeded) == once
  {
  }

  /** Registering and then cancelling an event not registered before restores the set. */
  lemma RegisterThenCancel(s: State, eventId: string)
    requires eventId !in s.registeredEventIds
    ensures OnCancelled(OnRegistered(s, eventId, Succeeded), eventId, Succeeded).registeredEventIds == s.registeredEventIds
  {
  }

  /** Registration and cancellation only ever change the one event's membership. */
  lemma OtherIdsUnchanged(s: State, eventId: string, c: Completion, other: string)
    requires other != eventId
    ensures other in OnRegistered(s, eventId, c).registeredEventIds <==> other in s.registeredEventIds
    ensures other in OnCancelled(s, eventId, c).registeredEventIds <==> other in s.registeredEventIds
  {
  }

  /** `clearError`. */
  function ClearError(s: State): (r: State)
    ensures r.ui.error.None? && r.ui.loading == s.ui.loading
    ensures r.(ui := s.ui) == s
  {
    s.(ui := WithoutError(s.ui))
  }
}
