/**
 * The app's records (the Kotlin data classes), the shape of a Firestore
 * document as the view models read it, the failures the SDKs report, and the
 * remote effects the view models issue.
 */
module Records {
  import opened Wrappers

  /** A Firestore `Timestamp?`, as an abstract instant. */
  type Timestamp = Option<int>

  /** Event.kt, with the `registrationCount` field the event mapping sets. */
  datatype Event = Event(
    id: string,
    title: string,
    date: string,
    venue: string,
    description: string,
    imageUrl: string,
    registrationCount: int,
    createdAt: Timestamp,
    createdBy: string)

  /** Club.kt */
  datatype Club = Club(
    id: string,
    name: string,
    description: string,
    imageUrl: string,
    createdAt: Timestamp,
    createdBy: string)

  /** Announcement.kt */
  datatype Announcement = Announcement(
    id: string,
    title: string,
    message: string,
    createdAt: Timestamp,
    createdBy: string)

  /** ClubAnnouncement.kt */
  datatype ClubAnnouncement = ClubAnnouncement(
    id: string,
    title: string,
    message: string,
    createdAt: Timestamp,
    createdBy: string)

  /** ClubMember.kt */
  datatype ClubMember = ClubMember(
    uid: string,
    name: string,
    email: string,
    joinedAt: Timestamp)

  /** One entry of the merged "recent announcements of my clubs" feed. */
  datatype ClubAnnouncementSummary = ClubAnnouncementSummary(
    id: string,
    clubId: string,
    title: string,
    message: string,
    createdAt: Timestamp)

  /** Per-club report figures; the counts are Kotlin Ints. */
  datatype ClubAnalytics = ClubAnalytics(
    clubId: string,
    clubName: string,
    memberCount: int,
    announcementCount: int,
    recentJoins7Days: int,
    lastAnnouncementAt: Timestamp,
    lastMemberJoinAt: Timestamp)

  /** A stored field value: a string, a whole number (Firestore Long) or a timestamp. */
  datatype Value = Str(s: string) | Num(n: int) | Time(t: int)

  /** The document fields the app reads or writes. */
  datatype Field =
    | Name | Description | ImageUrl | CreatedAt | CreatedBy
    | Title | Message | Date | Venue | RegistrationCount
    | Uid | Email | JoinedAt | Phone | Department | YearLevel | ProfileImageUrl | Role | UpdatedAt
    | EventId | RegisteredAt | Content

  /** The field map a view model writes. */
  type Payload = map<Field, Value>

  /** A stored document: its id and its fields. */
  datatype Doc = Doc(id: string, fields: Payload)

  /**
   * `DocumentSnapshot.getString`: the stored string, or absent when the field
   * is missing. A field of another type reads as absent here; Firestore throws.
   */
  function GetString(d: Doc, field: Field): (r: Option<string>)
    ensures r.Some? <==> field in d.fields && d.fields[field].Str?
    ensures r.Some? ==> d.fields[field] == Str(r.value)
  {
    if field in d.fields && d.fields[field].Str? then Some(d.fields[field].s) else None
  }

  /** `DocumentSnapshot.getLong`: the stored whole number, or absent (see `GetString`). */
  function GetLong(d: Doc, field: Field): (r: Option<int>)
    ensures r.Some? <==> field in d.fields && d.fields[field].Num?
    ensures r.Some? ==> d.fields[field] == Num(r.value)
  {
    if field in d.fields && d.fields[field].Num? then Some(d.fields[field].n) else None
  }

  /** `DocumentSnapshot.getTimestamp`: the stored instant, or absent (see `GetString`). */
  function GetTimestamp(d: Doc, field: Field): (r: Timestamp)
    ensures r.Some? <==> field in d.fields && d.fields[field].Time?
    ensures r.Some? ==> d.fields[field] == Time(r.value)
  {
    if field in d.fields && d.fields[field].Time? then Some(d.fields[field].t) else None
  }

  /**
   * `DocumentReference.update(data)` and `set(data, SetOptions.merge())`:
   * the written fields are replaced and every other field is kept.
   */
  function Merge(d: Doc, data: Payload): (r: Doc)
    ensures r.id == d.id
    ensures r.fields.Keys == d.fields.Keys + data.Keys
    ensures forall f :: f in data ==> r.fields[f] == data[f]
    ensures forall f :: f in d.fields && f !in data ==> r.fields[f] == d.fields[f]
  {
    Doc(d.id, d.fields + data)
  }

  /** The error codes the app tells apart; every other failure is `OtherError`. */
  datatype ErrorCode =
    | PermissionDenied                      // FirebaseFirestoreException.Code.PERMISSION_DENIED
    | NotAuthorized                         // StorageException.ERROR_NOT_AUTHORIZED
    | InvalidCredentials(errorCode: string) // FirebaseAuthInvalidCredentialsException
    | InvalidUser                           // FirebaseAuthInvalidUserException
    | OtherError

  /** A failed remote call: its code and its (nullable) `message`. */
  datatype Failure = Failure(code: ErrorCode, message: Option<string>)

  /** The result of a write. */
  datatype Completion = Succeeded | Failed(failure: Failure)

  /**
   * `ClubUiState`, `EventUiState` and `AnnouncementUiState`: three data classes
   * with the same two fields.
   */
  datatype UiState = UiState(loading: bool, error: Option<string>)

  /** `clearError` of the three shared UI states: the error goes, loading stays. */
  function WithoutError(u: UiState): (r: UiState)
    ensures r.error.None? && r.loading == u.loading
  {
    u.(error := None)
  }

  /**
   * The UI state a write's completion sets: loading ends; success clears the
   * error (and the caller's `onDone` runs), failure shows the failure's message.
   */
  function AfterWrite(c: Completion): (u: UiState)
    ensures !u.loading
    ensures c.Succeeded? ==> u.error.None?
    ensures c.Failed? ==> u.error == c.failure.message
  {
    match c
    case Succeeded => UiState(false, None)
    case Failed(f) => UiState(false, f.message)
  }

  /** One turn of the conversation sent to the language model. */
  datatype Turn = Turn(role: string, text: string)

  /** The remote calls the app makes. The model emits them; it never runs them. */
  datatype Effect =
    | Listen(query: string)                       // addSnapshotListener
    | ListenLatest(query: string, limit: nat)     // newest first, at most `limit` documents
    | Unlisten(query: string)                     // ListenerRegistration.remove()
    | AddDoc(collection: string, data: Payload)
    | UpdateDoc(path: string, data: Payload)
    | SetDoc(path: string, data: Payload, merge: bool)
    | DeleteDoc(path: string)
    | FetchDoc(path: string)
    | DeleteAll(collection: string)               // the batch delete of clearChat
    | CreateAccount(email: string, password: string)
    | SignIn(email: string, password: string)
    | SendPasswordReset(email: string)
    | SignOut
    | PutFile(path: string)                       // putFile followed by downloadUrl
    | AskModel(contents: seq<Turn>, campusContext: string)

  /** Where an Add lands: a document with a new id and exactly the written fields. */
  function Added(newId: string, data: Payload): (d: Doc)
    ensures d.id == newId && d.fields == data
  {
    Doc(newId, data)
  }
}
