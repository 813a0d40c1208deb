/**
 * `AdminReportsAnalyticsScreen`: the integer roll-ups over the per-club
 * analytics and the events, the "top by" selections, the loading and empty
 * choices and the highlight texts. The per-club figures arrive from outside
 * this model; the percentage and per-ten-members ratios are floating point
 * and are not modelled.
 */
module Reports {
  import opened Wrappers
  import opened Records
  import Text
  import Lists
  import Int32
  import Decimal

  const NO_DATA: string := "No data"
  const NO_NAME: string := "-"
  const UNNAMED_CLUB: string := "Unnamed Club"
  const UNTITLED_EVENT: string := "Untitled Event"

  function MemberCount(a: ClubAnalytics): int { a.memberCount }
  function AnnouncementCount(a: ClubAnalytics): int { a.announcementCount }
  function RegistrationCount(e: Event): int { e.registrationCount }

  /** `sumOf { key(it) }` over Kotlin Ints: the wrapped sum of the keys. */
  function SumOf<T>(s: seq<T>, key: T -> int): (r: int)
    ensures r == Int32.Wrap(Int32.Sum(Lists.Map(s, key)))
    ensures Int32.InRange(Int32.Sum(Lists.Map(s, key))) ==> r == Int32.Sum(Lists.Map(s, key))
  {
    Int32.WrappingSum(Lists.Map(s, key))
  }

  /** A total over two lists is the wrapped total of the two totals. */
  lemma SumOfAppend<T>(a: seq<T>, b: seq<T>, key: T -> int)
    ensures SumOf(a + b, key) == Int32.Wrap(SumOf(a, key) + SumOf(b, key))
  {
    assert Lists.Map(a + b, key) == Lists.Map(a, key) + Lists.Map(b, key);
    Int32.SumAppend(Lists.Map(a, key), Lists.Map(b, key));
    Int32.WrapAdd(Int32.Sum(Lists.Map(a, key)), SumOf(b, key));
    Int32.WrapAdd(Int32.Sum(Lists.Map(b, key)), Int32.Sum(Lists.Map(a, key)));
  }

  /** `v` occurs in `s`, and every element before that occurrence has a smaller key. */
  ghost predicate FirstMaximal<T>(s: seq<T>, key: T -> int, v: T) {
    exists i :: 0 <= i < |s| && s[i] == v && forall j :: 0 <= j < i ==> key(s[j]) < key(s[i])
  }

  /**
   * `maxByOrNull`: nothing for an empty list; otherwise the first element
   * whose key is the largest (a later element replaces it only when strictly larger).
   */
  method MaxByOrNull<T>(s: seq<T>, key: T -> int) returns (r: Option<T>)
    ensures r.None? <==> s == []
    ensures r.Some? ==> FirstMaximal(s, key, r.value)
    ensures r.Some? ==> forall j :: 0 <= j < |s| ==> key(s[j]) <= key(r.value)
  {
    if s == [] {
      return None;
    }
    var best := 0;
    var k := 1;
    while k < |s|
      invariant 1 <= k <= |s|
      invariant 0 <= best < k
      invariant forall j :: 0 <= j < k ==> key(s[j]) <= key(s[best])
      invariant forall j :: 0 <= j < best ==> key(s[j]) < key(s[best])
    {
      if key(s[best]) < key(s[k]) {
        best := k;
      }
      k := k + 1;
    }
    return Some(s[best]);
  }

  /** The figures of the summary and highlights cards. */
  datatype Figures = Figures(
    totalClubs: nat,
    totalMembers: int,
    totalAnnouncements: int,
    totalEvents: nat,
    totalEventRegistrations: int,
    topByMembers: Option<ClubAnalytics>,
    topByAnnouncements: Option<ClubAnalytics>,
    topByEventRegistrations: Option<Event>)

  method ComputeFigures(analytics: seq<ClubAnalytics>, events: seq<Event>) returns (f: Figures)
    ensures f.totalClubs == |analytics| && f.totalEvents == |events|
    ensures f.totalMembers == SumOf(analytics, MemberCount)
    ensures f.totalAnnouncements == SumOf(analytics, AnnouncementCount)
    ensures f.totalEventRegistrations == SumOf(events, RegistrationCount)
    ensures f.topByMembers.None? <==> analytics == []
    ensures f.topByMembers.Some? ==>
      f.topByMembers.value in analytics && forall a :: a in analytics ==> a.memberCount <= f.topByMembers.value.memberCount
    ensures f.topByMembers.Some? ==> FirstMaximal(analytics, MemberCount, f.topByMembers.value)
    ensures f.topByAnnouncements.None? <==> analytics == []
    ensures f.topByAnnouncements.Some? ==>
      (f.topByAnnouncements.value in analytics
       && forall a :: a in analytics ==> a.announcementCount <= f.topByAnnouncements.value.announcementCount)
    ensures f.topByAnnouncements.Some? ==> FirstMaximal(analytics, AnnouncementCount, f.topByAnnouncements.value)
    ensures f.topByEventRegistrations.None? <==> events == []
    ensures f.topByEventRegistrations.Some? ==>
      (f.topByEventRegistrations.value in events
       && forall e :: e in events ==> e.registrationCount <= f.topByEventRegistrations.value.registrationCount)
    ensures f.topByEventRegistrations.Some? ==> FirstMaximal(events, RegistrationCount, f.topByEventRegistrations.value)
  {
    var byMembers := MaxByOrNull(analytics, MemberCount);
    var byAnnouncements := MaxByOrNull(analytics, AnnouncementCount);
    var byRegistrations := MaxByOrNull(events, RegistrationCount);
    f := Figures(|analytics|, SumOf(analytics, MemberCount), SumOf(analytics, AnnouncementCount), |events|,
                 SumOf(events, RegistrationCount), byMembers, byAnnouncements, byRegistrations);
  }

  /** The spinner shows while loading with no analytics yet. */
  predicate ShowSpinner(loading: bool, analytics: seq<ClubAnalytics>) {
    loading && analytics == []
  }

  /** The "no analytics yet" text shows once loading ended with none. */
  predicate ShowNoAnalytics(loading: bool, analytics: seq<ClubAnalytics>) {
    !loading && analytics == []
  }

  /** With no analytics exactly one of the spinner and the empty text shows; with some, neither. */
  lemma SpinnerOrEmptyText(loading: bool, analytics: seq<ClubAnalytics>)
    ensures analytics == [] ==> ShowSpinner(loading, analytics) != ShowNoAnalytics(loading, analytics)
    ensures analytics != [] ==> !ShowSpinner(loading, analytics) && !ShowNoAnalytics(loading, analytics)
  {
  }

  /**
   * One highlight line: the label, the top item's name (or "-") and its count
   * (or 0) in parentheses.
   */
  function HighlightLine(caption: string, top: Option<(string, int)>): (line: string)
    ensures top.None? ==> line == caption + NO_NAME + " (0)"
    ensures top.Some? ==> line == caption + top.value.0 + " (" + Decimal.LongToString(top.value.1) + ")"
  {
    var name := if top.Some? then top.value.0 else NO_NAME;
    var count := if top.Some? then top.value.1 else 0;
    caption + name + " (" + Decimal.LongToString(count) + ")"
  }

  function MostMembersLine(top: Option<ClubAnalytics>): string {
    HighlightLine("Most members: ", if top.Some? then Some((top.value.clubName, top.value.memberCount)) else None)
  }

  function MostAnnouncementsLine(top: Option<ClubAnalytics>): string {
    HighlightLine("Most announcements: ",
                  if top.Some? then Some((top.value.clubName, top.value.announcementCount)) else None)
  }

  function MostRegisteredLine(top: Option<Event>): string {
    HighlightLine("Most registered event: ",
                  if top.Some? then Some((top.value.title, top.value.registrationCount)) else None)
  }

  /** `formatTimestamp`: "No data" for a missing instant, else the (uninterpreted) date format's text. */
  function FormatTimestamp(t: Timestamp, format: int -> string): (r: string)
    ensures t.None? ==> r == NO_DATA
    ensures t.Some? ==> r == format(t.value)
  {
    match t
    case None => NO_DATA
    case Some(ms) => format(ms)
  }

  function ClubTitle(a: ClubAnalytics): (r: string)
    ensures Text.IsBlank(a.clubName) ==> r == UNNAMED_CLUB
    ensures !Text.IsBlank(a.clubName) ==> r == a.clubName
  {
    Text.IfBlank(a.clubName, UNNAMED_CLUB)
  }

  function EventTitle(e: Event): (r: string)
    ensures Text.IsBlank(e.title) ==> r == UNTITLED_EVENT
    ensures !Text.IsBlank(e.title) ==> r == e.title
  {
    Text.IfBlank(e.title, UNTITLED_EVENT)
  }
}
