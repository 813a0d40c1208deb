/**
 * `ClubAnnouncementsScreen`: the access gate on the feed subscription and on
 * what is shown, the post form and its clearing after a successful post, and
 * the optional time label of each announcement.
 */
module ClubAnnouncementsScreen {
  import opened Wrappers
  import opened Records
  import ClubVm
  import Navigation
  import Lists

  const JOIN_PROMPT: string := "Join this club to view announcements."
  const POSTING: string := "Posting..."
  const POST: string := "Post"

  /** The feed is open to whoever may post and to members. */
  predicate MayView(a: Navigation.Access) {
    a.canPost || a.isMember
  }

  /** The launched effect: subscribe to the club's announcements only when the feed is open. */
  function Enter(s: ClubVm.State, a: Navigation.Access): (o: ClubVm.Outcome)
    ensures !MayView(a) ==> o == ClubVm.Outcome(s, [])
    ensures o.effects != [] ==> MayView(a) && o.effects == [Listen(ClubVm.AnnouncementsQuery(a.clubId))]
    ensures MayView(a) && s.announcementsClubId != Some(a.clubId) ==> o.effects != []
  {
    if MayView(a) then ClubVm.ListenClubAnnouncements(s, a.clubId) else ClubVm.Outcome(s, [])
  }

  /** The title and message text fields. */
  datatype Draft = Draft(title: string, message: string)

  const EMPTY_DRAFT := Draft("", "")

  /** The post card: its fields and its button. */
  datatype PostForm = PostForm(draft: Draft, buttonEnabled: bool, buttonText: string)

  datatype Card = Card(title: string, timeLabel: Option<string>, message: string)

  /** What follows the header: the join prompt alone, or the feed with its extras. */
  datatype View =
    | JoinPrompt(text: string)
    | Feed(form: Option<PostForm>, spinner: bool, error: Option<string>, emptyText: bool, cards: seq<Card>)

  /** `formatTimestamp`: no label for a missing instant, else the (uninterpreted) format's text. */
  function TimeLabel(ts: Timestamp, format: int -> string): (r: Option<string>)
    ensures r.None? <==> ts.None?
    ensures r.Some? ==> r.value == format(ts.value)
  {
    match ts
    case None => None
    case Some(t) => Some(format(t))
  }

  function CardOf(a: ClubAnnouncement, format: int -> string): Card {
    Card(a.title, TimeLabel(a.createdAt, format), a.message)
  }

  function Cards(xs: seq<ClubAnnouncement>, format: int -> string): (r: seq<Card>)
    ensures |r| == |xs|
    ensures forall i :: 0 <= i < |xs| ==> r[i] == CardOf(xs[i], format)
  {
    Lists.Map(xs, (x: ClubAnnouncement) => CardOf(x, format))
  }

  /** The screen's body for the given access, view-model state and draft. */
  function Render(a: Navigation.Access, ui: UiState, announcements: seq<ClubAnnouncement>, draft: Draft,
                  format: int -> string): (v: View)
    ensures v.JoinPrompt? <==> !MayView(a)
    ensures v.JoinPrompt? ==> v.text == JOIN_PROMPT
    ensures v.Feed? ==> (v.form.Some? <==> a.canPost)
    ensures v.Feed? && v.form.Some? ==>
      v.form.value.draft == draft && (v.form.value.buttonEnabled <==> !ui.loading)
      && v.form.value.buttonText == (if ui.loading then POSTING else POST)
    ensures v.Feed? ==> v.spinner == ui.loading && v.error == ui.error
    ensures v.Feed? ==> (v.emptyText <==> announcements == [] && !ui.loading)
    ensures v.Feed? && !v.emptyText ==> |v.cards| == |announcements|
    ensures v.Feed? && !v.emptyText ==>
      forall i :: 0 <= i < |announcements| ==>
        v.cards[i].title == announcements[i].title
        && v.cards[i].message == announcements[i].message
        && (v.cards[i].timeLabel.None? <==> announcements[i].createdAt.None?)
    ensures v.Feed? && v.emptyText ==> v.cards == []
  {
    if !MayView(a) then JoinPrompt(JOIN_PROMPT)
    else
      var form := if a.canPost then Some(PostForm(draft, !ui.loading, if ui.loading then POSTING else POST)) else None;
      var empty := announcements == [] && !ui.loading;
      Feed(form, ui.loading, ui.error, empty, if empty then [] else Cards(announcements, format))
  }

  /** The post button: the club's `postClubAnnouncement` with the draft as typed. */
  function Post(s: ClubVm.State, a: Navigation.Access, draft: Draft, uid: Option<string>, now: int): ClubVm.Outcome {
    ClubVm.PostClubAnnouncement(s, a.clubId, draft.title, draft.message, uid, now)
  }

  /** The `onDone` of a post clears both fields; a failed post keeps the draft. */
  function AfterPost(draft: Draft, c: Completion): (r: Draft)
    ensures c.Succeeded? ==> r == EMPTY_DRAFT
    ensures c.Failed? ==> r == draft
  {
    if c.Succeeded? then EMPTY_DRAFT else draft
  }

  /** After a successful post, pressing the button again writes nothing: the cleared draft is blank. */
  lemma RepostAfterSuccessRejected(s: ClubVm.State, a: Navigation.Access, draft: Draft, uid: Option<string>, now: int)
    ensures Post(s, a, AfterPost(draft, Succeeded), uid, now).effects == []
    ensures Post(s, a, AfterPost(draft, Succeeded), uid, now).state.ui.error == Some(ClubVm.TITLE_AND_MESSAGE_REQUIRED)
  {
  }

  /** The student copy of the screen for a club the student has not joined shows only the prompt and subscribes to nothing. */
  lemma NonMemberSeesNothing(s: ClubVm.State, n: Navigation.Nav, myClubIds: set<string>, ui: UiState,
                             announcements: seq<ClubAnnouncement>, draft: Draft, format: int -> string)
    requires n.screen == Navigation.StudentClubAnnouncements && n.selectedClubId !in myClubIds
    ensures var a := Navigation.ClubAnnouncementsAccess(n, myClubIds).value;
      Enter(s, a).effects == [] && Render(a, ui, announcements, draft, format) == JoinPrompt(JOIN_PROMPT)
  {
  }

  /** The admin copy always opens the feed with the form. */
  lemma AdminSeesForm(n: Navigation.Nav, myClubIds: set<string>, ui: UiState,
                      announcements: seq<ClubAnnouncement>, draft: Draft, format: int -> string)
    requires n.screen == Navigation.AdminClubAnnouncements
    ensures var a := Navigation.ClubAnnouncementsAccess(n, myClubIds).value;
      Render(a, ui, announcements, draft, format).Feed? && Render(a, ui, announcements, draft, format).form.Some?
  {
  }
}
