/**
 * `StudentAiChatScreen`: the campus summary sent with every question
 * (`buildCampusContext` and `truncate`) and the send button's guard.
 */
module AiChatScreen {
  import opened Wrappers
  import opened Records
  import Text
  import Lists
  import AiChatVm

  /** The default length `truncate` shortens to. */
  const MAX_SNIPPET: nat := 180
  const ELLIPSIS: string := "..."
  const NONE_LINE: string := "- None"
  const NEWLINE: string := "\n"
  /** The first line of the campus summary. */
  const HEADER: string := "Announcements:\n"
  const MISSING_KEY: string := "Missing GEMINI_API_KEY in local.properties."

  const MAX_ANNOUNCEMENTS: nat := 5
  const MAX_EVENTS: nat := 5
  const MAX_CLUBS: nat := 6
  const MAX_CLUB_ANNOUNCEMENTS: nat := 6

  /**
   * `truncate`: the trimmed text when its `length` (in UTF-16 code units) fits,
   * otherwise its first `max - 3` units followed by "...". Kotlin's `take`
   * throws for a negative count, hence `max >= 3`.
   */
  function Truncate(text: string, max: nat): (r: string)
    requires max >= 3
    ensures Text.Utf16Length(r) <= max
    ensures Text.Utf16Length(Text.Trim(text)) <= max ==> r == Text.Trim(text)
    ensures Text.Utf16Length(Text.Trim(text)) > max ==>
      && |r| >= 3
      && r[..|r| - 3] <= Text.Trim(text)
      && r[|r| - 3..] == ELLIPSIS
      && max <= Text.Utf16Length(r) + 1
    ensures Text.Utf16Length(Text.Trim(text)) > max ==> FullLength(Text.Trim(text), r, max)
  {
    var clean := Text.Trim(text);
    if Text.Utf16Length(clean) <= max then clean else Shorten(clean, max)
  }

  /**
   * A shortened `r` is exactly `max` units long, or one short only because the
   * character of `clean` after the kept prefix is a surrogate pair.
   */
  predicate FullLength(clean: string, r: string, max: nat) {
    || Text.Utf16Length(r) == max
    || (3 <= |r| && |r| - 3 < |clean| && Text.CharUnits(clean[|r| - 3]) == 2)
  }

  /** The long branch of `truncate`: `take(max - 3)` followed by "...". */
  function Shorten(clean: string, max: nat): (r: string)
    requires max >= 3 && Text.Utf16Length(clean) > max
    ensures |r| >= 3
    ensures r[..|r| - 3] <= clean
    ensures r[|r| - 3..] == ELLIPSIS
    ensures max <= Text.Utf16Length(r) + 1 && Text.Utf16Length(r) <= max
    ensures FullLength(clean, r, max)
  {
    var kept := Text.TakeUnits(clean, max - 3);
    var r := kept + ELLIPSIS;
    assert |r| - 3 == |kept| && r[..|kept|] == kept && r[|kept|..] == ELLIPSIS
        && Text.Utf16Length(r) == Text.Utf16Length(kept) + 3 by {
      WithEllipsis(kept);
    }
    assert FullLength(clean, r, max) by {
      Text.TakeUnitsLength(clean, max - 3);
      KeptThenEllipsis(clean, kept, r, max);
    }
    r
  }

  /** How `take(max - 3)` ended decides whether "..." brings the text to `max` units. */
  lemma KeptThenEllipsis(clean: string, kept: string, r: string, max: nat)
    requires max >= 3 && |r| == |kept| + 3 && Text.Utf16Length(r) == Text.Utf16Length(kept) + 3
    requires || Text.Utf16Length(kept) == max - 3
             || (|kept| < |clean| && Text.CharUnits(clean[|kept|]) == 2)
    ensures FullLength(clean, r, max)
  {
  }

  /** Appending the ellipsis adds three characters and three code units. */
  lemma WithEllipsis(kept: string)
    ensures var r := kept + ELLIPSIS;
      && |r| == |kept| + 3
      && r[..|kept|] == kept
      && r[|kept|..] == ELLIPSIS
      && Text.Utf16Length(r) == Text.Utf16Length(kept) + 3
  {
    Text.Utf16LengthAppend(kept, ELLIPSIS);
    assert Text.Utf16Length(ELLIPSIS) == 3 by {
      Text.BasicPlaneLength(ELLIPSIS);
    }
  }

  /**
   * Without surrogate pairs the long branch is exactly `take(max - 3) + "..."`:
   * "abcdefgh" shortened to 5 is "ab...".
   */
  lemma {:induction false} ShortenBasicPlane(clean: string, max: nat)
    requires max >= 3 && Text.Utf16Length(clean) > max
    requires forall i :: 0 <= i < |clean| ==> clean[i] as int < 0x1_0000
    ensures |clean| > max && Shorten(clean, max) == clean[..max - 3] + ELLIPSIS
  {
    Text.BasicPlaneLength(clean);
    var r := Shorten(clean, max);
    var kept := r[..|r| - 3];
    assert r == kept + ELLIPSIS;
    assert forall i :: 0 <= i < |r| ==> r[i] as int < 0x1_0000 by {
      forall i | 0 <= i < |r|
        ensures r[i] as int < 0x1_0000
      {
        if i < |kept| {
          assert r[i] == kept[i] == clean[i];
        } else {
          assert r[i] == ELLIPSIS[i - |kept|];
        }
      }
    }
    Text.BasicPlaneLength(r);
    assert |r| == max;
    assert kept == clean[..max - 3];
  }

  /** Truncating a truncated text changes nothing. */
  lemma TruncateIdempotent(text: string, max: nat)
    requires max >= 3
    ensures Truncate(Truncate(text, max), max) == Truncate(text, max)
  {
    var clean := Text.Trim(text);
    var r := Truncate(text, max);
    if Text.Utf16Length(clean) > max {
      assert r[|r| - 1] == '.';
      if |r| > 3 {
        assert r[0] == r[..|r| - 3][0] == clean[0];
      } else {
        assert r[0] == '.';
      }
    }
    assert Text.IsTrimmed(r);
    Text.TrimOfTrimmed(r);
  }

  /**
   * `clubNameById[id]` where the map is `clubs.associate { it.id to it.name }`:
   * the name of the last club with that id.
   */
  function NameById(clubs: seq<Club>, id: string): (r: Option<string>)
    ensures r.None? <==> forall i :: 0 <= i < |clubs| ==> clubs[i].id != id
    ensures r.Some? ==> exists i :: (0 <= i < |clubs| && clubs[i].id == id && clubs[i].name == r.value
                                     && forall j :: i < j < |clubs| ==> clubs[j].id != id)
  {
    if clubs == [] then None
    else if clubs[|clubs| - 1].id == id then Some(clubs[|clubs| - 1].name)
    else
      var r := NameById(clubs[..|clubs| - 1], id);
      assert forall i :: 0 <= i < |clubs| - 1 ==> clubs[..|clubs| - 1][i] == clubs[i];
      r
  }

  /** The club shown for a club announcement: its name, or "Club <id>" when missing or blank. */
  function ClubLabel(clubs: seq<Club>, clubId: string): (shown: string)
    ensures (forall i :: 0 <= i < |clubs| ==> clubs[i].id != clubId) ==> shown == "Club " + clubId
    ensures NameById(clubs, clubId).Some? && !Text.IsBlank(NameById(clubs, clubId).value) ==>
      shown == NameById(clubs, clubId).value
    ensures NameById(clubs, clubId).Some? && Text.IsBlank(NameById(clubs, clubId).value) ==>
      shown == "Club " + clubId
  {
    Text.IfBlank(Text.OrEmpty(NameById(clubs, clubId)), "Club " + clubId)
  }

  /** With a single club of that id, the label is its name unless that is blank. */
  lemma UniqueClubLabel(clubs: seq<Club>, k: nat)
    requires k < |clubs| && !Text.IsBlank(clubs[k].name)
    requires forall i :: 0 <= i < |clubs| && i != k ==> clubs[i].id != clubs[k].id
    ensures ClubLabel(clubs, clubs[k].id) == clubs[k].name
  {
    var r := NameById(clubs, clubs[k].id);
    var i :| 0 <= i < |clubs| && clubs[i].id == clubs[k].id && clubs[i].name == r.value
             && forall j :: i < j < |clubs| ==> clubs[j].id != clubs[k].id;
    assert i == k;
  }

  /** A bullet line of the summary. */
  predicate IsItem(line: string) {
    |line| >= 2 && line[..2] == "- "
  }

  function AnnouncementLine(a: Announcement): (r: string)
    ensures IsItem(r)
  {
    "- " + a.title + ": " + Truncate(a.message, MAX_SNIPPET)
  }

  function EventLine(e: Event): (r: string)
    ensures IsItem(r)
  {
    "- " + e.title + " on " + e.date + " at " + e.venue + ": " + Truncate(e.description, MAX_SNIPPET)
  }

  function ClubLine(c: Club): (r: string)
    ensures IsItem(r)
  {
    "- " + c.name + ": " + Truncate(c.description, MAX_SNIPPET)
  }

  function ClubAnnouncementLine(clubs: seq<Club>, item: ClubAnnouncementSummary): (r: string)
    ensures IsItem(r)
  {
    "- " + ClubLabel(clubs, item.clubId) + ": " + item.title + " - " + Truncate(item.message, MAX_SNIPPET)
  }

  /** One section's body: its lines joined, or "- None" when there are none. */
  function Section(lines: seq<string>): (r: string)
    requires forall i :: 0 <= i < |lines| ==> |lines[i]| >= 2 && lines[i][..2] == "- "
    ensures lines == [] ==> r == NONE_LINE
    ensures lines != [] ==> r == Text.Join(lines, NEWLINE)
  {
    LinesNotBlank(lines);
    Text.IfBlank(Text.Join(lines, NEWLINE), NONE_LINE)
  }

  /** Lines that start with "- " never join into a blank text. */
  lemma LinesNotBlank(lines: seq<string>)
    requires forall i :: 0 <= i < |lines| ==> |lines[i]| >= 2 && lines[i][..2] == "- "
    ensures lines != [] ==> !Text.IsBlank(Text.Join(lines, NEWLINE))
  {
    if lines != [] {
      assert lines[0][..2][0] == lines[0][0] == '-';
      Text.JoinNotBlank(lines, NEWLINE);
    }
  }

  function AnnouncementsText(announcements: seq<Announcement>): string {
    Section(Lists.Map(Lists.Take(announcements, MAX_ANNOUNCEMENTS), AnnouncementLine))
  }

  function EventsText(events: seq<Event>): string {
    Section(Lists.Map(Lists.Take(events, MAX_EVENTS), EventLine))
  }

  function ClubsText(clubs: seq<Club>): string {
    Section(Lists.Map(Lists.Take(clubs, MAX_CLUBS), ClubLine))
  }

  function ClubAnnouncementsText(clubs: seq<Club>, items: seq<ClubAnnouncementSummary>): string {
    Section(Lists.Map(Lists.Take(items, MAX_CLUB_ANNOUNCEMENTS), item => ClubAnnouncementLine(clubs, item)))
  }

  /** The four sections after the first header, each introduced by its own header. */
  function CampusSections(announcements: seq<Announcement>, events: seq<Event>, clubs: seq<Club>,
                          items: seq<ClubAnnouncementSummary>): string {
    AnnouncementsText(announcements)
    + "\n\nEvents:\n" + EventsText(events)
    + "\n\nClubs:\n" + ClubsText(clubs)
    + "\n\nClub announcements:\n" + ClubAnnouncementsText(clubs, items)
  }

  /** The template of `buildCampusContext` between its opening and closing line breaks. */
  function CampusBody(announcements: seq<Announcement>, events: seq<Event>, clubs: seq<Club>,
                      items: seq<ClubAnnouncementSummary>): string {
    HEADER + CampusSections(announcements, events, clubs, items)
  }

  /**
   * `trimIndent` of "\n" + body + "\n" when a line of the body starts at
   * column 0: the text is split into lines at "\r\n", "\r" and "\n", the first
   * and the last line are dropped because both are blank, the common indent is
   * zero, and the lines are joined with "\n". What remains is the body with
   * its line breaks normalized.
   */
  function TrimIndentOfBody(body: string): (r: string)
    ensures '\r' !in r
    ensures '\r' !in body ==> r == body
    ensures HEADER <= body ==> HEADER <= r
  {
    var n := Text.NormalizeLineBreaks(body + "\n");
    DropFinalBreak(body);
    n[..|n| - 1]
  }

  /** The last line break of the normalized template is the one `trimIndent` drops. */
  lemma DropFinalBreak(body: string)
    ensures var n := Text.NormalizeLineBreaks(body + "\n");
      && |n| >= 1
      && '\r' !in n[..|n| - 1]
      && ('\r' !in body ==> n[..|n| - 1] == body)
      && (HEADER <= body ==> HEADER <= n[..|n| - 1])
  {
    Text.NormalizeDropsFinalBreak(body);
    if HEADER <= body {
      assert '\r' !in HEADER && HEADER[|HEADER| - 1] == '\n';
      Text.NormalizeKeepsPrefix(HEADER, body);
    }
  }

  /**
   * `buildCampusContext`: four headed sections in the order announcements,
   * events, clubs, club announcements, through `trimIndent`. The headers start
   * at column 0, so the indent removed is zero and only line breaks change,
   * including those inside the quoted titles and messages.
   */
  function CampusContext(announcements: seq<Announcement>, events: seq<Event>, clubs: seq<Club>,
                         items: seq<ClubAnnouncementSummary>): (r: string)
    ensures '\r' !in r
    ensures '\r' !in CampusBody(announcements, events, clubs, items) ==> r == CampusBody(announcements, events, clubs, items)
    ensures HEADER <= r
  {
    TrimIndentOfBody(CampusBody(announcements, events, clubs, items))
  }

  /**
   * Only the first five announcements and events and the first six club
   * announcements reach the model; every club still names its announcements.
   */
  lemma OnlyLeadingItemsMatter(announcements: seq<Announcement>, events: seq<Event>, clubs: seq<Club>,
                               items: seq<ClubAnnouncementSummary>)
    ensures CampusContext(announcements, events, clubs, items)
         == CampusContext(Lists.Take(announcements, MAX_ANNOUNCEMENTS), Lists.Take(events, MAX_EVENTS), clubs,
                          Lists.Take(items, MAX_CLUB_ANNOUNCEMENTS))
  {
    assert Lists.Take(Lists.Take(announcements, MAX_ANNOUNCEMENTS), MAX_ANNOUNCEMENTS) == Lists.Take(announcements, MAX_ANNOUNCEMENTS);
    assert Lists.Take(Lists.Take(events, MAX_EVENTS), MAX_EVENTS) == Lists.Take(events, MAX_EVENTS);
    assert Lists.Take(Lists.Take(items, MAX_CLUB_ANNOUNCEMENTS), MAX_CLUB_ANNOUNCEMENTS) == Lists.Take(items, MAX_CLUB_ANNOUNCEMENTS);
  }

  /** The summary of an empty campus. */
  const EMPTY_CAMPUS: string :=
    HEADER + (NONE_LINE + "\n\nEvents:\n" + NONE_LINE + "\n\nClubs:\n" + NONE_LINE + "\n\nClub announcements:\n" + NONE_LINE)

  /** With nothing on campus every section reads "- None". */
  lemma EmptyCampus()
    ensures CampusContext([], [], [], []) == EMPTY_CAMPUS
  {
    assert AnnouncementsText([]) == NONE_LINE;
    assert EventsText([]) == NONE_LINE;
    assert ClubsText([]) == NONE_LINE;
    assert ClubAnnouncementsText([], []) == NONE_LINE;
    assert CampusBody([], [], [], []) == EMPTY_CAMPUS;
    assert '\r' !in HEADER && '\r' !in NONE_LINE;
    assert '\r' !in "\n\nEvents:\n" && '\r' !in "\n\nClubs:\n" && '\r' !in "\n\nClub announcements:\n";
  }

  /** What a click on Send does. */
  datatype SendAction = NoAction | ReportMissingKey | Send(userText: string)

  /** The input field after the click, and the action taken. */
  datatype SendOutcome = SendOutcome(input: string, action: SendAction)

  /**
   * The Send button: nothing for blank input or while loading; a blank API key
   * is reported; otherwise the input is cleared and its trimmed text sent.
   */
  function OnSendClicked(input: string, loading: bool, apiKey: string): (o: SendOutcome)
    ensures Text.IsBlank(input) || loading ==> o == SendOutcome(input, NoAction)
    ensures !Text.IsBlank(input) && !loading && Text.IsBlank(apiKey) ==> o == SendOutcome(input, ReportMissingKey)
    ensures o.action.Send? <==> !Text.IsBlank(input) && !loading && !Text.IsBlank(apiKey)
    ensures o.action.Send? ==> o.input == "" && o.action.userText == Text.Trim(input)
  {
    if Text.IsBlank(input) || loading then SendOutcome(input, NoAction)
    else if Text.IsBlank(apiKey) then SendOutcome(input, ReportMissingKey)
    else SendOutcome("", Send(Text.Trim(input)))
  }

  /** Reporting the missing key shows the fixed message in the chat's error slot. */
  function ApplyMissingKey(s: AiChatVm.State): (r: AiChatVm.State)
    ensures r.ui.error == Some(MISSING_KEY) && r.messages == s.messages
  {
    AiChatVm.SetError(s, MISSING_KEY)
  }

  /**
   * Text the button sends always passes the view model's blank check, and is
   * stored exactly as sent.
   */
  lemma SentTextIsStored(input: string, loading: bool, apiKey: string, s: AiChatVm.State, uid: string, now: int)
    requires OnSendClicked(input, loading, apiKey).action.Send?
    ensures var t := OnSendClicked(input, loading, apiKey).action.userText;
            AiChatVm.SendMessage(s, Some(uid), t, now).effects
            == [AddDoc(AiChatVm.ChatPath(uid), AiChatVm.MessagePayload(AiChatVm.USER, t, now))]
  {
    var t := Text.Trim(input);
    Text.BlankAfterTrim(input);
    Text.TrimIdempotent(input);
  }
}
