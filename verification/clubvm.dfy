/**
 * `ClubViewModel`: club, member and club-announcement listeners with their
 * one-shot guards, the club and announcement writes with their validation and
 * payloads, the write completions and `clearError`. The fan-in of the
 * "recent announcements of my clubs" feed is the `ClubFeed` module; this module
 * wires it to the membership listener.
 */
module ClubVm {
  import opened Wrappers
  import opened Records
  import Text
  import Lists
  import ClubFeed

  const NAME_AND_DESCRIPTION_REQUIRED: string := "Name and description are required"
  const TITLE_AND_MESSAGE_REQUIRED: string := "Title and message are required"
  const NOT_LOGGED_IN: string := "Not logged in"

  /** The default `limit` of the collection-group announcements query. */
  const DEFAULT_RECENT_LIMIT: nat := 20

  const CLUBS: string := "clubs"
  /** The collection-group query over every `announcements` collection. */
  const ALL_ANNOUNCEMENTS: string := "**/announcements"

  function ClubPath(clubId: string): string {
    "clubs/" + clubId
  }

  function MyClubsQuery(uid: string): string {
    "users/" + uid + "/clubs"
  }

  function MembersQuery(clubId: string): string {
    "clubs/" + clubId + "/members"
  }

  function AnnouncementsQuery(clubId: string): string {
    "clubs/" + clubId + "/announcements"
  }

  /** Different clubs have different announcement queries. */
  lemma AnnouncementsQueryInjective(a: string, b: string)
    requires AnnouncementsQuery(a) == AnnouncementsQuery(b)
    ensures a == b
  {
    var qa, qb := AnnouncementsQuery(a), AnnouncementsQuery(b);
    assert |a| == |b|;
    forall i | 0 <= i < |a| ensures a[i] == b[i] {
      assert qa[6 + i] == a[i] && qb[6 + i] == b[i];
    }
  }

  datatype State = State(
    ui: UiState,
    clubs: seq<Club>,
    members: seq<ClubMember>,
    myClubIds: set<string>,
    clubAnnouncements: seq<ClubAnnouncement>,
    fan: ClubFeed.FeedState,          // listener keys and `recentClubAnnouncements`
    startedClubs: bool,
    membersClubId: Option<string>,
    announcementsClubId: Option<string>,
    startedMyClubs: bool,
    startedRecent: bool,              // shared by both "recent announcements" listeners
    followingMembership: bool,        // the fan-in is collecting `myClubIds`
    limitPerClub: nat)

  function Initial(): State {
    State(UiState(false, None), [], [], {}, [], ClubFeed.FeedState({}, []),
          false, None, None, false, false, false, ClubFeed.DEFAULT_LIMIT_PER_CLUB)
  }

  /** A new state and the remote calls the operation issued. */
  datatype Outcome = Outcome(state: State, effects: seq<Effect>)

  /* ---------- Reading documents ---------- */

  function ClubOf(d: Doc): (c: Club)
    ensures c.id == d.id
    ensures c.createdAt == GetTimestamp(d, CreatedAt)
    ensures GetString(d, Name).None? ==> c.name == ""
    ensures GetString(d, Name).Some? ==> c.name == GetString(d, Name).value
    ensures GetString(d, Description).None? ==> c.description == ""
    ensures GetString(d, Description).Some? ==> c.description == GetString(d, Description).value
    ensures GetString(d, ImageUrl).None? ==> c.imageUrl == ""
    ensures GetString(d, ImageUrl).Some? ==> c.imageUrl == GetString(d, ImageUrl).value
    ensures GetString(d, CreatedBy).None? ==> c.createdBy == ""
    ensures GetString(d, CreatedBy).Some? ==> c.createdBy == GetString(d, CreatedBy).value
  {
    Club(d.id,
         GetString(d, Name).GetOr(""),
         GetString(d, Description).GetOr(""),
         GetString(d, ImageUrl).GetOr(""),
         GetTimestamp(d, CreatedAt),
         GetString(d, CreatedBy).GetOr(""))
  }

  /** A member document without a `uid` field is identified by its document id. */
  function MemberOf(d: Doc): (m: ClubMember)
    ensures GetString(d, Uid).None? ==> m.uid == d.id
    ensures GetString(d, Uid).Some? ==> m.uid == GetString(d, Uid).value
    ensures GetString(d, Name).None? ==> m.name == ""
    ensures GetString(d, Name).Some? ==> m.name == GetString(d, Name).value
    ensures GetString(d, Email).None? ==> m.email == ""
    ensures GetString(d, Email).Some? ==> m.email == GetString(d, Email).value
    ensures m.joinedAt == GetTimestamp(d, JoinedAt)
  {
    ClubMember(GetString(d, Uid).GetOr(d.id),
               GetString(d, Name).GetOr(""),
               GetString(d, Email).GetOr(""),
               GetTimestamp(d, JoinedAt))
  }

  function ClubAnnouncementOf(d: Doc): (a: ClubAnnouncement)
    ensures a.id == d.id && a.createdAt == GetTimestamp(d, CreatedAt)
    ensures GetString(d, Title).None? ==> a.title == ""
    ensures GetString(d, Title).Some? ==> a.title == GetString(d, Title).value
    ensures GetString(d, Message).None? ==> a.message == ""
    ensures GetString(d, Message).Some? ==> a.message == GetString(d, Message).value
    ensures GetString(d, CreatedBy).None? ==> a.createdBy == ""
    ensures GetString(d, CreatedBy).Some? ==> a.createdBy == GetString(d, CreatedBy).value
  {
    ClubAnnouncement(d.id,
                     GetString(d, Title).GetOr(""),
                     GetString(d, Message).GetOr(""),
                     GetTimestamp(d, CreatedAt),
                     GetString(d, CreatedBy).GetOr(""))
  }

  /** A result of the collection-group query: the owning club, if the document has one. */
  datatype GroupDoc = GroupDoc(parentClub: Option<string>, doc: Doc)

  predicate HasOwner(g: GroupDoc) {
    g.parentClub.Some?
  }

  /** The summary of a document that has an owning club. */
  function Tagged(g: GroupDoc): ClubFeed.Summary {
    ClubFeed.SummaryOf(g.parentClub.GetOr(""), g.doc)
  }

  /**
   * `mapNotNull` over the collection-group result: documents without an owning
   * club are dropped, the others are tagged with it, in order.
   */
  function GroupSummaries(docs: seq<GroupDoc>): (r: seq<ClubFeed.Summary>)
    ensures |r| == Lists.Count(docs, (g: GroupDoc) => g.parentClub.Some?)
    ensures forall i :: 0 <= i < |r| ==> exists j :: 0 <= j < |docs| && docs[j].parentClub == Some(r[i].clubId) && docs[j].doc.id == r[i].id
  {
    if |docs| == 0 then []
    else
      var rest := GroupSummaries(docs[1..]);
      assert forall i :: 0 <= i < |rest| ==> exists j :: 0 <= j < |docs| && docs[j].parentClub == Some(rest[i].clubId) && docs[j].doc.id == rest[i].id by {
        forall i | 0 <= i < |rest|
          ensures exists j :: 0 <= j < |docs| && docs[j].parentClub == Some(rest[i].clubId) && docs[j].doc.id == rest[i].id
        {
          var j :| 0 <= j < |docs[1..]| && docs[1..][j].parentClub == Some(rest[i].clubId) && docs[1..][j].doc.id == rest[i].id;
          assert docs[j + 1] == docs[1..][j];
        }
      }
      match docs[0].parentClub
      case None => rest
      case Some(c) => [ClubFeed.SummaryOf(c, docs[0].doc)] + rest
  }

  /**
   * The summaries are the owned documents, in query order, each read as
   * `SummaryOf` its owning club.
   */
  lemma {:induction false} GroupSummariesInOrder(docs: seq<GroupDoc>)
    ensures GroupSummaries(docs) == Lists.Map(Lists.Filter(docs, HasOwner), Tagged)
  {
    if |docs| > 0 {
      GroupSummariesInOrder(docs[1..]);
      var f := Lists.Filter(docs[1..], HasOwner);
      if HasOwner(docs[0]) {
        assert Lists.Filter(docs, HasOwner) == [docs[0]] + f;
        assert GroupSummaries(docs) == [Tagged(docs[0])] + GroupSummaries(docs[1..]);
        Lists.MapCons(docs[0], f, Tagged);
      } else {
        assert Lists.Filter(docs, HasOwner) == f;
        assert GroupSummaries(docs) == GroupSummaries(docs[1..]);
      }
    }
  }

  /* ---------- Listeners and their guards ---------- */

  /** `listenClubs`: one-shot; the first call shows loading and opens the listener. */
  function ListenClubs(s: State): (o: Outcome)
    ensures o.state.startedClubs
    ensures s.startedClubs ==> o == Outcome(s, [])
    ensures !s.startedClubs ==> o.state.ui == UiState(true, None) && o.effects == [Listen(CLUBS)]
    ensures o.state.(ui := s.ui, startedClubs := s.startedClubs) == s
  {
    if s.startedClubs then Outcome(s, [])
    else Outcome(s.(startedClubs := true, ui := UiState(true, None)), [Listen(CLUBS)])
  }

  /** `listenMyClubs`: nothing without a user; otherwise one-shot. */
  function ListenMyClubs(s: State, uid: Option<string>): (o: Outcome)
    ensures uid.None? || s.startedMyClubs ==> o == Outcome(s, [])
    ensures uid.Some? && !s.startedMyClubs ==>
      o.state == s.(startedMyClubs := true) && o.effects == [Listen(MyClubsQuery(uid.value))]
  {
    if uid.None? || s.startedMyClubs then Outcome(s, [])
    else Outcome(s.(startedMyClubs := true), [Listen(MyClubsQuery(uid.value))])
  }

  /**
   * `listenMembers`: a no-op for the club already followed; any other club
   * shows loading and opens a listener (the previous one is not removed).
   */
  function ListenMembers(s: State, clubId: string): (o: Outcome)
    ensures o.state.membersClubId == Some(clubId)
    ensures s.membersClubId == Some(clubId) ==> o == Outcome(s, [])
    ensures s.membersClubId != Some(clubId) ==>
      o.state.ui == UiState(true, None) && o.effects == [Listen(MembersQuery(clubId))]
    ensures o.state.(ui := s.ui, membersClubId := s.membersClubId) == s
  {
    if s.membersClubId == Some(clubId) then Outcome(s, [])
    else Outcome(s.(membersClubId := Some(clubId), ui := UiState(true, None)), [Listen(MembersQuery(clubId))])
  }

  /** `listenClubAnnouncements`: the same guard, keyed by the club id. */
  function ListenClubAnnouncements(s: State, clubId: string): (o: Outcome)
    ensures o.state.announcementsClubId == Some(clubId)
    ensures s.announcementsClubId == Some(clubId) ==> o == Outcome(s, [])
    ensures s.announcementsClubId != Some(clubId) ==>
      o.state.ui == UiState(true, None) && o.effects == [Listen(AnnouncementsQuery(clubId))]
    ensures o.state.(ui := s.ui, announcementsClubId := s.announcementsClubId) == s
  {
    if s.announcementsClubId == Some(clubId) then Outcome(s, [])
    else Outcome(s.(announcementsClubId := Some(clubId), ui := UiState(true, None)), [Listen(AnnouncementsQuery(clubId))])
  }

  /** `listenRecentClubAnnouncements`: one collection-group query, guarded by the shared flag. */
  function ListenRecentClubAnnouncements(s: State, limit: nat): (o: Outcome)
    ensures o.state.startedRecent
    ensures s.startedRecent ==> o == Outcome(s, [])
    ensures !s.startedRecent ==>
      o.state == s.(startedRecent := true) && o.effects == [ListenLatest(ALL_ANNOUNCEMENTS, limit)]
  {
    if s.startedRecent then Outcome(s, [])
    else Outcome(s.(startedRecent := true), [ListenLatest(ALL_ANNOUNCEMENTS, limit)])
  }

  /**
   * `listenRecentClubAnnouncementsForMyClubs`: guarded by the same flag; starts
   * `listenMyClubs` and then follows the membership set, whose current value is
   * delivered at once.
   */
  method ListenRecentForMyClubs(s: State, uid: Option<string>, limitPerClub: nat) returns (o: Outcome)
    ensures o.state.startedRecent
    ensures s.startedRecent ==> o == Outcome(s, [])
    ensures !s.startedRecent ==> o.state.followingMembership && o.state.fan.listeners == s.myClubIds
    ensures !s.startedRecent && uid.Some? && !s.startedMyClubs ==> Listen(MyClubsQuery(uid.value)) in o.effects
    ensures !s.startedRecent ==>
              forall c :: ListenLatest(AnnouncementsQuery(c), limitPerClub) in o.effects <==> c in s.myClubIds && c !in s.fan.listeners
  {
    if s.startedRecent {
      return Outcome(s, []);
    }
    var my := ListenMyClubs(s.(startedRecent := true), uid);
    var t := my.state.(followingMembership := true, limitPerClub := limitPerClub);
    var m := OnMyClubIds(t, t.myClubIds);
    assert forall e :: e in my.effects ==> e.Listen?;
    o := Outcome(m.state, my.effects + m.effects);
  }

  /* ---------- Listener events ---------- */

  /** A snapshot of all clubs replaces the list and ends loading. */
  function OnClubs(s: State, docs: seq<Doc>): (r: State)
    ensures |r.clubs| == |docs|
    ensures forall i :: 0 <= i < |docs| ==> r.clubs[i] == ClubOf(docs[i])
    ensures r.ui == UiState(false, None)
  {
    s.(clubs := Lists.Map(docs, ClubOf), ui := UiState(false, None))
  }

  /** A failing clubs, members or club-announcements listener ends loading with its message. */
  function OnListFailed(s: State, message: Option<string>): (r: State)
    ensures r.ui == UiState(false, message)
    ensures r.(ui := s.ui) == s
  {
    s.(ui := UiState(false, message))
  }

  /** A failing membership or recent-announcements listener only sets the error. */
  function OnBackgroundFailed(s: State, message: Option<string>): (r: State)
    ensures r.ui.loading == s.ui.loading && r.ui.error == message
    ensures r.(ui := s.ui) == s
  {
    s.(ui := s.ui.(error := message))
  }

  function OnMembers(s: State, docs: seq<Doc>): (r: State)
    ensures |r.members| == |docs|
    ensures forall i :: 0 <= i < |docs| ==> r.members[i] == MemberOf(docs[i])
    ensures r.ui == UiState(false, None)
  {
    s.(members := Lists.Map(docs, MemberOf), ui := UiState(false, None))
  }

  function OnClubAnnouncements(s: State, docs: seq<Doc>): (r: State)
    ensures |r.clubAnnouncements| == |docs|
    ensures forall i :: 0 <= i < |docs| ==> r.clubAnnouncements[i] == ClubAnnouncementOf(docs[i])
    ensures r.ui == UiState(false, None)
  {
    s.(clubAnnouncements := Lists.Map(docs, ClubAnnouncementOf), ui := UiState(false, None))
  }

  /** The collection-group snapshot replaces the whole recent list. */
  function OnRecentGroup(s: State, docs: seq<GroupDoc>): (r: State)
    ensures r.fan.feed == GroupSummaries(docs) && r.fan.listeners == s.fan.listeners
    ensures r.ui == s.ui
  {
    s.(fan := s.fan.(feed := GroupSummaries(docs)))
  }

  /**
   * The membership listener delivered `ids`. When the fan-in is following it,
   * the per-club listeners of clubs left are removed and clubs joined get one;
   * the merged feed is not touched.
   */
  method OnMyClubIds(s: State, ids: set<string>) returns (o: Outcome)
    ensures o.state.myClubIds == ids
    ensures o.state.ui == s.ui && o.state.fan.feed == s.fan.feed
    ensures s.followingMembership ==> o.state.fan.listeners == ids
    ensures !s.followingMembership ==> o.state.fan == s.fan && o.effects == []
    ensures forall e :: e in o.effects ==> e.ListenLatest? || e.Unlisten?
    ensures o.state.(myClubIds := s.myClubIds, fan := s.fan) == s
    ensures forall c :: (ListenLatest(AnnouncementsQuery(c), s.limitPerClub) in o.effects
      <==> s.followingMembership && c in ids && c !in s.fan.listeners)
    ensures forall c :: (Unlisten(AnnouncementsQuery(c)) in o.effects
      <==> s.followingMembership && c !in ids && c in s.fan.listeners)
  {
    if !s.followingMembership {
      return Outcome(s.(myClubIds := ids), []);
    }
    var keys, removed, added := ClubFeed.ApplyMembership(s.fan.listeners, ids);
    var stops := Lists.Map(removed, (c: string) => Unlisten(AnnouncementsQuery(c)));
    var starts := Lists.Map(added, (c: string) => ListenLatest(AnnouncementsQuery(c), s.limitPerClub));
    forall c ensures ListenLatest(AnnouncementsQuery(c), s.limitPerClub) in stops + starts <==> c in added {
      if ListenLatest(AnnouncementsQuery(c), s.limitPerClub) in starts {
        var i :| 0 <= i < |starts| && starts[i] == ListenLatest(AnnouncementsQuery(c), s.limitPerClub);
        AnnouncementsQueryInjective(c, added[i]);
      }
      if c in added {
        var i :| 0 <= i < |added| && added[i] == c;
        assert starts[i] == ListenLatest(AnnouncementsQuery(c), s.limitPerClub);
      }
    }
    forall c ensures Unlisten(AnnouncementsQuery(c)) in stops + starts <==> c in removed {
      if Unlisten(AnnouncementsQuery(c)) in stops {
        var i :| 0 <= i < |stops| && stops[i] == Unlisten(AnnouncementsQuery(c));
        AnnouncementsQueryInjective(c, removed[i]);
      }
      if c in removed {
        var i :| 0 <= i < |removed| && removed[i] == c;
        assert stops[i] == Unlisten(AnnouncementsQuery(c));
      }
    }
    o := Outcome(s.(myClubIds := ids, fan := ClubFeed.Step(s.fan, ClubFeed.MembershipChanged(ids))), stops + starts);
  }

  /** A per-club snapshot of the fan-in: that club's slice is replaced. */
  function OnClubFeed(s: State, clubId: string, docs: seq<Doc>): (r: State)
    ensures r.fan == ClubFeed.Step(s.fan, ClubFeed.ClubSnapshot(clubId, docs))
    ensures r.(fan := s.fan) == s
  {
    s.(fan := ClubFeed.Step(s.fan, ClubFeed.ClubSnapshot(clubId, docs)))
  }

  /* ---------- Writes ---------- */

  /** The fields `createClub` writes: the three texts trimmed, the creation time and the author. */
  function CreateClubPayload(name: string, description: string, imageUrl: string, uid: string, now: int): (p: Payload)
    ensures p.Keys == {Name, Description, ImageUrl, CreatedAt, CreatedBy}
  {
    map[Name := Str(Text.Trim(name)),
        Description := Str(Text.Trim(description)),
        ImageUrl := Str(Text.Trim(imageUrl)),
        CreatedAt := Time(now),
        CreatedBy := Str(uid)]
  }

  /** The fields `updateClub` writes: only the three trimmed texts. */
  function UpdateClubPayload(name: string, description: string, imageUrl: string): (p: Payload)
    ensures p.Keys == {Name, Description, ImageUrl}
    ensures p[Name].Str? && Text.IsTrimmed(p[Name].s)
    ensures p[Description].Str? && Text.IsTrimmed(p[Description].s)
    ensures p[ImageUrl].Str? && Text.IsTrimmed(p[ImageUrl].s)
  {
    map[Name := Str(Text.Trim(name)),
        Description := Str(Text.Trim(description)),
        ImageUrl := Str(Text.Trim(imageUrl))]
  }

  /** A created club reads back with its trimmed texts, time and author. */
  lemma CreatedClubReadsBack(id: string, name: string, description: string, imageUrl: string, uid: string, now: int)
    ensures ClubOf(Added(id, CreateClubPayload(name, description, imageUrl, uid, now)))
         == Club(id, Text.Trim(name), Text.Trim(description), Text.Trim(imageUrl), Some(now), uid)
  {
    ClubFromFields(id, Text.Trim(name), Text.Trim(description), Text.Trim(imageUrl), uid, now);
  }

  lemma ClubFromFields(id: string, name: string, description: string, imageUrl: string, uid: string, now: int)
    ensures ClubOf(Doc(id, map[Name := Str(name), Description := Str(description), ImageUrl := Str(imageUrl),
                               CreatedAt := Time(now), CreatedBy := Str(uid)]))
         == Club(id, name, description, imageUrl, Some(now), uid)
  {
  }

  /** An updated club keeps its id, creation time and author. */
  lemma UpdatedClubReadsBack(d: Doc, name: string, description: string, imageUrl: string)
    ensures ClubOf(Merge(d, UpdateClubPayload(name, description, imageUrl)))
         == ClubOf(d).(name := Text.Trim(name), description := Text.Trim(description), imageUrl := Text.Trim(imageUrl))
  {
    ClubUpdatedFields(d, Text.Trim(name), Text.Trim(description), Text.Trim(imageUrl));
  }

  lemma ClubUpdatedFields(d: Doc, name: string, description: string, imageUrl: string)
    ensures ClubOf(Merge(d, map[Name := Str(name), Description := Str(description), ImageUrl := Str(imageUrl)]))
         == ClubOf(d).(name := name, description := description, imageUrl := imageUrl)
  {
    var m := Merge(d, map[Name := Str(name), Description := Str(description), ImageUrl := Str(imageUrl)]);
    assert GetTimestamp(m, CreatedAt) == GetTimestamp(d, CreatedAt);
    assert GetString(m, CreatedBy) == GetString(d, CreatedBy);
  }

  /**
   * `createClub`: a blank name or description is rejected first, then a
   * missing user; neither writes. Otherwise loading starts and one document is
   * added to `clubs`.
   */
  function CreateClub(s: State, name: string, description: string, imageUrl: string, uid: Option<string>, now: int): (o: Outcome)
    ensures Text.IsBlank(name) || Text.IsBlank(description) ==>
      o == Outcome(s.(ui := UiState(false, Some(NAME_AND_DESCRIPTION_REQUIRED))), [])
    ensures !Text.IsBlank(name) && !Text.IsBlank(description) && uid.None? ==>
      o == Outcome(s.(ui := UiState(false, Some(NOT_LOGGED_IN))), [])
    ensures o.effects != [] <==> !Text.IsBlank(name) && !Text.IsBlank(description) && uid.Some?
    ensures o.effects != [] ==>
      o.state == s.(ui := UiState(true, None))
      && o.effects == [AddDoc(CLUBS, CreateClubPayload(name, description, imageUrl, uid.value, now))]
  {
    if Text.IsBlank(name) || Text.IsBlank(description) then
      Outcome(s.(ui := UiState(false, Some(NAME_AND_DESCRIPTION_REQUIRED))), [])
    else if uid.None? then
      Outcome(s.(ui := UiState(false, Some(NOT_LOGGED_IN))), [])
    else
      Outcome(s.(ui := UiState(true, None)), [AddDoc(CLUBS, CreateClubPayload(name, description, imageUrl, uid.value, now))])
  }

  /** `updateClub`: the same text check; no login check; an update of the club document. */
  function UpdateClub(s: State, id: string, name: string, description: string, imageUrl: string): (o: Outcome)
    ensures Text.IsBlank(name) || Text.IsBlank(description) ==>
      o == Outcome(s.(ui := UiState(false, Some(NAME_AND_DESCRIPTION_REQUIRED))), [])
    ensures !Text.IsBlank(name) && !Text.IsBlank(description) ==>
      o == Outcome(s.(ui := UiState(true, None)), [UpdateDoc(ClubPath(id), UpdateClubPayload(name, description, imageUrl))])
  {
    if Text.IsBlank(name) || Text.IsBlank(description) then
      Outcome(s.(ui := UiState(false, Some(NAME_AND_DESCRIPTION_REQUIRED))), [])
    else
      Outcome(s.(ui := UiState(true, None)), [UpdateDoc(ClubPath(id), UpdateClubPayload(name, description, imageUrl))])
  }

  /** `deleteClub`: always issues the delete. */
  function DeleteClub(s: State, id: string): (o: Outcome)
    ensures o.state.ui == UiState(true, None) && o.effects == [DeleteDoc(ClubPath(id))]
  {
    Outcome(s.(ui := UiState(true, None)), [DeleteDoc(ClubPath(id))])
  }

  /** `joinClub`, first step: without a user an error; otherwise the user's profile is fetched. */
  function JoinClub(s: State, uid: Option<string>): (o: Outcome)
    ensures uid.None? ==> o == Outcome(s.(ui := UiState(false, Some(NOT_LOGGED_IN))), [])
    ensures uid.Some? ==> o == Outcome(s.(ui := UiState(true, None)), [FetchDoc("users/" + uid.value)])
  {
    if uid.None? then Outcome(s.(ui := UiState(false, Some(NOT_LOGGED_IN))), [])
    else Outcome(s.(ui := UiState(true, None)), [FetchDoc("users/" + uid.value)])
  }

  /** The member record `joinClub` writes, copied from the fetched profile. */
  function MemberPayload(uid: string, profile: Doc, now: int): (p: Payload)
    ensures p.Keys == {Uid, Name, Email, JoinedAt}
  {
    map[Uid := Str(uid),
        Name := Str(GetString(profile, Name).GetOr("")),
        Email := Str(GetString(profile, Email).GetOr("")),
        JoinedAt := Time(now)]
  }

  /** A member written by `joinClub` reads back as that user, joined now. */
  lemma JoinedMemberReadsBack(uid: string, profile: Doc, now: int)
    ensures MemberOf(Doc(uid, MemberPayload(uid, profile, now)))
         == ClubMember(uid, GetString(profile, Name).GetOr(""), GetString(profile, Email).GetOr(""), Some(now))
  {
  }

  /** `joinClub`, second step: the member document, then the user's club marker. */
  function JoinWrites(uid: string, clubId: string, profile: Doc, now: int): (effects: seq<Effect>)
    ensures |effects| == 2
    ensures effects[0].SetDoc? && effects[0].path == MembersQuery(clubId) + "/" + uid
    ensures effects[1].SetDoc? && effects[1].path == MyClubsQuery(uid) + "/" + clubId
  {
    [SetDoc(MembersQuery(clubId) + "/" + uid, MemberPayload(uid, profile, now), false),
     SetDoc(MyClubsQuery(uid) + "/" + clubId, map[JoinedAt := Time(now)], false)]
  }

  /** `leaveClub`: without a user an error; otherwise both documents are deleted, member first. */
  function LeaveClub(s: State, clubId: string, uid: Option<string>): (o: Outcome)
    ensures uid.None? ==> o == Outcome(s.(ui := UiState(false, Some(NOT_LOGGED_IN))), [])
    ensures uid.Some? ==> (o.state == s.(ui := UiState(true, None))
      && o.effects == [DeleteDoc(MembersQuery(clubId) + "/" + uid.value), DeleteDoc(MyClubsQuery(uid.value) + "/" + clubId)])
  {
    if uid.None? then Outcome(s.(ui := UiState(false, Some(NOT_LOGGED_IN))), [])
    else Outcome(s.(ui := UiState(true, None)),
                 [DeleteDoc(MembersQuery(clubId) + "/" + uid.value), DeleteDoc(MyClubsQuery(uid.value) + "/" + clubId)])
  }

  /** The fields `postClubAnnouncement` writes. */
  function ClubAnnouncementPayload(title: string, message: string, uid: string, now: int): (p: Payload)
    ensures p.Keys == {Title, Message, CreatedAt, CreatedBy}
  {
    map[Title := Str(Text.Trim(title)),
        Message := Str(Text.Trim(message)),
        CreatedAt := Time(now),
        CreatedBy := Str(uid)]
  }

  /** A posted club announcement reads back with trimmed texts, its time and author. */
  lemma PostedClubAnnouncementReadsBack(id: string, title: string, message: string, uid: string, now: int)
    ensures ClubAnnouncementOf(Added(id, ClubAnnouncementPayload(title, message, uid, now)))
         == ClubAnnouncement(id, Text.Trim(title), Text.Trim(message), Some(now), uid)
  {
  }

  /** `postClubAnnouncement`: blank texts first, then the user; otherwise one added document. */
  function PostClubAnnouncement(s: State, clubId: string, title: string, message: string, uid: Option<string>, now: int): (o: Outcome)
    ensures Text.IsBlank(title) || Text.IsBlank(message) ==>
      o == Outcome(s.(ui := UiState(false, Some(TITLE_AND_MESSAGE_REQUIRED))), [])
    ensures !Text.IsBlank(title) && !Text.IsBlank(message) && uid.None? ==>
      o == Outcome(s.(ui := UiState(false, Some(NOT_LOGGED_IN))), [])
    ensures o.effects != [] <==> !Text.IsBlank(title) && !Text.IsBlank(message) && uid.Some?
    ensures o.effects != [] ==>
      o.state == s.(ui := UiState(true, None))
      && o.effects == [AddDoc(AnnouncementsQuery(clubId), ClubAnnouncementPayload(title, message, uid.value, now))]
  {
    if Text.IsBlank(title) || Text.IsBlank(message) then
      Outcome(s.(ui := UiState(false, Some(TITLE_AND_MESSAGE_REQUIRED))), [])
    else if uid.None? then
      Outcome(s.(ui := UiState(false, Some(NOT_LOGGED_IN))), [])
    else
      Outcome(s.(ui := UiState(true, None)), [AddDoc(AnnouncementsQuery(clubId), ClubAnnouncementPayload(title, message, uid.value, now))])
  }

  /** The completion of every club write: the UI state is replaced, nothing else changes. */
  function Complete(s: State, c: Completion): (r: State)
    ensures r.ui == AfterWrite(c)
    ensures r.(ui := s.ui) == s
  {
    s.(ui := AfterWrite(c))
  }

  /** `clearError`: the error goes, loading and everything else stay. */
  function ClearError(s: State): (r: State)
    ensures r.ui.error.None? && r.ui.loading == s.ui.loading
    ensures r.(ui := s.ui) == s
  {
    s.(ui := WithoutError(s.ui))
  }

  /* ---------- Properties across calls ---------- */

  /** Every listen guard makes a repeated call a no-op. */
  lemma ListenTwiceIsNoOp(s: State, uid: Option<string>, clubId: string, limit: nat)
    ensures var t := ListenClubs(s).state; ListenClubs(t) == Outcome(t, [])
    ensures var t := ListenMyClubs(s, uid).state; ListenMyClubs(t, uid) == Outcome(t, [])
    ensures var t := ListenMembers(s, clubId).state; ListenMembers(t, clubId) == Outcome(t, [])
    ensures var t := ListenClubAnnouncements(s, clubId).state; ListenClubAnnouncements(t, clubId) == Outcome(t, [])
    ensures var t := ListenRecentClubAnnouncements(s, limit).state; ListenRecentClubAnnouncements(t, limit) == Outcome(t, [])
  {
  }

  /**
   * The two "recent announcements" listeners share one started flag: once the
   * collection-group listener has started, the fan-in never starts.
   */
  method RecentThenForMyClubs(s: State, limit: nat, uid: Option<string>, limitPerClub: nat) returns (o: Outcome)
    ensures o == Outcome(ListenRecentClubAnnouncements(s, limit).state, [])
    ensures !s.followingMembership ==> !o.state.followingMembership
  {
    var t := ListenRecentClubAnnouncements(s, limit).state;
    o := ListenRecentForMyClubs(t, uid, limitPerClub);
  }

  /** After `clearError` a second one changes nothing. */
  lemma ClearErrorIdempotent(s: State)
    ensures ClearError(ClearError(s)) == ClearError(s)
  {
  }
}
