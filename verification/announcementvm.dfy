/**
 * `AnnouncementViewModel`: the one-shot announcements listener, post and
 * update with their validation and trimmed payloads, delete, the write
 * completions and `clearError`.
 */
module AnnouncementVm {
  import opened Wrappers
  import opened Records
  import Text
  import Lists

  const TITLE_AND_MESSAGE_REQUIRED: string := "Title and message are required"
  const NOT_LOGGED_IN: string := "Not logged in"

  const ANNOUNCEMENTS: string := "announcements"

  function AnnouncementPath(id: string): string {
    "announcements/" + id
  }

  datatype State = State(ui: UiState, announcements: seq<Announcement>, startedListening: bool)

  function Initial(): State {
    State(UiState(false, None), [], false)
  }

  datatype Outcome = Outcome(state: State, effects: seq<Effect>)

  function AnnouncementOf(d: Doc): (a: Announcement)
    ensures a.id == d.id && a.createdAt == GetTimestamp(d, CreatedAt)
    ensures GetString(d, Title).None? ==> a.title == ""
    ensures GetString(d, Title).Some? ==> a.title == GetString(d, Title).value
    ensures GetString(d, Message).None? ==> a.message == ""
    ensures GetString(d, Message).Some? ==> a.message == GetString(d, Message).value
    ensures GetString(d, CreatedBy).None? ==> a.createdBy == ""
    ensures GetString(d, CreatedBy).Some? ==> a.createdBy == GetString(d, CreatedBy).value
  {
    Announcement(d.id,
                 GetString(d, Title).GetOr(""),
                 GetString(d, Message).GetOr(""),
                 GetTimestamp(d, CreatedAt),
                 GetString(d, CreatedBy).GetOr(""))
  }

  /** `listenAnnouncements`: one-shot; the first call shows loading. */
  function ListenAnnouncements(s: State): (o: Outcome)
    ensures o.state.startedListening
    ensures s.startedListening ==> o == Outcome(s, [])
    ensures !s.startedListening ==> o.state.ui == UiState(true, None) && o.effects == [Listen(ANNOUNCEMENTS)]
    ensures o.state.announcements == s.announcements
  {
    if s.startedListening then Outcome(s, [])
    else Outcome(s.(startedListening := true, ui := UiState(true, None)), [Listen(ANNOUNCEMENTS)])
  }

  /** A second `listenAnnouncements` does nothing. */
  lemma ListenTwiceIsNoOp(s: State)
    ensures var t := ListenAnnouncements(s).state; ListenAnnouncements(t) == Outcome(t, [])
  {
  }

  function OnAnnouncements(s: State, docs: seq<Doc>): (r: State)
    ensures |r.announcements| == |docs|
    ensures forall i :: 0 <= i < |docs| ==> r.announcements[i] == AnnouncementOf(docs[i])
    ensures r.ui == UiState(false, None) && r.startedListening == s.startedListening
  {
    s.(announcements := Lists.Map(docs, AnnouncementOf), ui := UiState(false, None))
  }

  function OnAnnouncementsFailed(s: State, message: Option<string>): (r: State)
    ensures r == s.(ui := UiState(false, message))
  {
    s.(ui := UiState(false, message))
  }

  /** The title and message fields, as written. */
  function Texts(title: string, message: string): (p: Payload)
    ensures p.Keys == {Title, Message}
    ensures p[Title] == Str(title) && p[Message] == Str(message)
  {
    map[Title := Str(title), Message := Str(message)]
  }

  /** The fields `postAnnouncement` writes: trimmed texts, the time and the author. */
  function PostPayload(title: string, message: string, uid: string, now: int): (p: Payload)
    ensures p.Keys == {Title, Message, CreatedAt, CreatedBy}
    ensures p[CreatedBy] == Str(uid) && p[CreatedAt] == Time(now)
  {
    Texts(Text.Trim(title), Text.Trim(message))[CreatedAt := Time(now)][CreatedBy := Str(uid)]
  }

  /** The fields `updateAnnouncement` writes: only the trimmed title and message. */
  function UpdatePayload(title: string, message: string): (p: Payload)
    ensures p.Keys == {Title, Message}
    ensures p[Title].Str? && Text.IsTrimmed(p[Title].s)
    ensures p[Message].Str? && Text.IsTrimmed(p[Message].s)
  {
    Texts(Text.Trim(title), Text.Trim(message))
  }

  lemma AnnouncementFromFields(id: string, title: string, message: string, uid: string, now: int)
    ensures AnnouncementOf(Doc(id, Texts(title, message)[CreatedAt := Time(now)][CreatedBy := Str(uid)]))
         == Announcement(id, title, message, Some(now), uid)
  {
  }

  /** A posted announcement reads back with trimmed texts, its time and author. */
  lemma PostedReadsBack(id: string, title: string, message: string, uid: string, now: int)
    ensures AnnouncementOf(Added(id, PostPayload(title, message, uid, now)))
         == Announcement(id, Text.Trim(title), Text.Trim(message), Some(now), uid)
  {
    AnnouncementFromFields(id, Text.Trim(title), Text.Trim(message), uid, now);
  }

  lemma AnnouncementUpdatedFields(d: Doc, title: string, message: string)
    ensures AnnouncementOf(Merge(d, Texts(title, message))) == AnnouncementOf(d).(title := title, message := message)
  {
    var m := Merge(d, Texts(title, message));
    assert GetTimestamp(m, CreatedAt) == GetTimestamp(d, CreatedAt);
    assert GetString(m, CreatedBy) == GetString(d, CreatedBy);
  }

  /** An update keeps the creation time and the author. */
  lemma UpdatedReadsBack(d: Doc, title: string, message: string)
    ensures AnnouncementOf(Merge(d, UpdatePayload(title, message)))
         == AnnouncementOf(d).(title := Text.Trim(title), message := Text.Trim(message))
  {
    AnnouncementUpdatedFields(d, Text.Trim(title), Text.Trim(message));
  }

  /**
   * `postAnnouncement`: a blank title or message first, and only then the
   * login check; neither writes. Otherwise loading starts and one document is added.
   */
  function Post(s: State, title: string, message: string, uid: Option<string>, now: int): (o: Outcome)
    ensures Text.IsBlank(title) || Text.IsBlank(message) ==>
      o == Outcome(s.(ui := UiState(false, Some(TITLE_AND_MESSAGE_REQUIRED))), [])
    ensures !Text.IsBlank(title) && !Text.IsBlank(message) && uid.None? ==>
      o == Outcome(s.(ui := UiState(false, Some(NOT_LOGGED_IN))), [])
    ensures o.effects != [] <==> !Text.IsBlank(title) && !Text.IsBlank(message) && uid.Some?
    ensures o.effects != [] ==>
      o.state == s.(ui := UiState(true, None)) && o.effects == [AddDoc(ANNOUNCEMENTS, PostPayload(title, message, uid.value, now))]
  {
    if Text.IsBlank(title) || Text.IsBlank(message) then Outcome(s.(ui := UiState(false, Some(TITLE_AND_MESSAGE_REQUIRED))), [])
    else if uid.None? then Outcome(s.(ui := UiState(false, Some(NOT_LOGGED_IN))), [])
    else Outcome(s.(ui := UiState(true, None)), [AddDoc(ANNOUNCEMENTS, PostPayload(title, message, uid.value, now))])
  }

  /** `updateAnnouncement`: the same text check, no login check, one update. */
  function Update(s: State, id: string, title: string, message: string): (o: Outcome)
    ensures Text.IsBlank(title) || Text.IsBlank(message) ==>
      o == Outcome(s.(ui := UiState(false, Some(TITLE_AND_MESSAGE_REQUIRED))), [])
    ensures !Text.IsBlank(title) && !Text.IsBlank(message) ==>
      o == Outcome(s.(ui := UiState(true, None)), [UpdateDoc(AnnouncementPath(id), UpdatePayload(title, message))])
  {
    if Text.IsBlank(title) || Text.IsBlank(message) then Outcome(s.(ui := UiState(false, Some(TITLE_AND_MESSAGE_REQUIRED))), [])
    else Outcome(s.(ui := UiState(true, None)), [UpdateDoc(AnnouncementPath(id), UpdatePayload(title, message))])
  }

  function Delete(s: State, id: string): (o: Outcome)
    ensures o == Outcome(s.(ui := UiState(true, None)), [DeleteDoc(AnnouncementPath(id))])
  {
    Outcome(s.(ui := UiState(true, None)), [DeleteDoc(AnnouncementPath(id))])
  }

  /** A write completed: the UI state is replaced, nothing else changes. */
  function Complete(s: State, c: Completion): (r: State)
    ensures r.ui == AfterWrite(c)
    ensures r.(ui := s.ui) == s
  {
    s.(ui := AfterWrite(c))
  }

  /** `clearError`: only the error goes. */
  function ClearError(s: State): (r: State)
    ensures r.ui.error.None? && r.ui.loading == s.ui.loading
    ensures r.(ui := s.ui) == s
  {
    s.(ui := WithoutError(s.ui))
  }
}
