/**
 * `StudentDashboard`: the lists the dashboard derives from the clubs, the
 * events and the user's memberships and registrations, and the event-date
 * key they are ordered by. `SimpleDateFormat` is an uninterpreted parser.
 */
module Dashboard {
  import opened Wrappers
  import opened Records
  import Text
  import Lists
  import Sorting
  import Int32

  const UPCOMING_COUNT: nat := 3
  const TOP_CLUB_COUNT: nat := 5

  /** The patterns `eventDateMillis` tries, in order. */
  const DATE_FORMATS: seq<string> := [
    "MMM d, h:mm a",
    "MMM d, yyyy h:mm a",
    "MMM d, yyyy, h:mm a",
    "MMM d h:mm a",
    "yyyy-MM-dd HH:mm",
    "yyyy-MM-dd"
  ]

  /**
   * A lenient US-locale `SimpleDateFormat(pattern).parse(raw)`: the instant
   * in milliseconds, or nothing for a null result or a `ParseException`.
   */
  type DateParser = (string, string) -> Option<int>

  /** The position of the first pattern, in order, that parses `raw`. */
  function FirstParse(patterns: seq<string>, raw: string, parse: DateParser): (r: Option<nat>)
    ensures r.None? <==> forall i :: 0 <= i < |patterns| ==> parse(patterns[i], raw).None?
    ensures r.Some? ==> (r.value < |patterns| && parse(patterns[r.value], raw).Some?
                         && forall j :: 0 <= j < r.value ==> parse(patterns[j], raw).None?)
  {
    if patterns == [] then None
    else if parse(patterns[0], raw).Some? then Some(0)
    else
      match FirstParse(patterns[1..], raw, parse)
      case None => None
      case Some(i) => Some(i + 1)
  }

  /** `adjustYearIfMissing`: both of its branches return the parsed instant. */
  function AdjustYearIfMissing(millis: int, pattern: string): (r: int)
    ensures r == millis
  {
    if !Contains(pattern, "yyyy") then millis else millis
  }

  /** `s.contains(part)`, case-sensitive. */
  predicate Contains(s: string, part: string) {
    (|part| <= |s| && s[..|part|] == part) || (s != [] && Contains(s[1..], part))
  }

  /** The fallback instant: the creation time, or `Long.MAX_VALUE` when there is none. */
  function CreatedOrLast(e: Event): int {
    e.createdAt.GetOr(Int32.LONG_MAX)
  }

  /**
   * `eventDateMillis`: the first format that parses the trimmed date; a blank
   * date, or one no format parses, falls back to the creation time, and
   * without one to `Long.MAX_VALUE`.
   */
  function EventDateMillis(e: Event, parse: DateParser): (r: int)
    ensures Text.IsBlank(e.date) ==> r == CreatedOrLast(e)
    ensures (!Text.IsBlank(e.date)
             && forall i :: 0 <= i < |DATE_FORMATS| ==> parse(DATE_FORMATS[i], Text.Trim(e.date)).None?) ==>
      r == CreatedOrLast(e)
    ensures !Text.IsBlank(e.date) && FirstParse(DATE_FORMATS, Text.Trim(e.date), parse).Some? ==>
      Some(r) == parse(DATE_FORMATS[FirstParse(DATE_FORMATS, Text.Trim(e.date), parse).value], Text.Trim(e.date))
  {
    var raw := Text.Trim(e.date);
    Text.BlankAfterTrim(e.date);
    if Text.IsBlank(raw) then CreatedOrLast(e)
    else
      match FirstParse(DATE_FORMATS, raw, parse)
      case Some(i) => AdjustYearIfMissing(parse(DATE_FORMATS[i], raw).value, DATE_FORMATS[i])
      case None => CreatedOrLast(e)
  }

  // ---------------------------------------------------------- joined clubs

  /** `createdAt?.toDate()?.time ?: 0L`. */
  function CreatedMillis(c: Club): int {
    c.createdAt.GetOr(0)
  }

  function NewestFirst(): (Club, Club) -> bool {
    (a: Club, b: Club) => CreatedMillis(a) >= CreatedMillis(b)
  }

  lemma NewestFirstIsTotalPreorder()
    ensures Sorting.TotalPreorder(NewestFirst())
  {
  }

  /** The clubs the user belongs to, newest first (a missing creation time counts as 0). */
  function JoinedClubs(clubs: seq<Club>, myClubIds: set<string>): (r: seq<Club>)
    ensures multiset(r) == multiset(Lists.Filter(clubs, (c: Club) => c.id in myClubIds))
    ensures forall c :: c in r <==> c in clubs && c.id in myClubIds
    ensures Sorting.SortedBy(r, NewestFirst())
    ensures forall x :: Lists.Filter(r, Sorting.Ties(NewestFirst(), x))
                     == Lists.Filter(Lists.Filter(clubs, (c: Club) => c.id in myClubIds), Sorting.Ties(NewestFirst(), x))
  {
    var joined := Lists.Filter(clubs, (c: Club) => c.id in myClubIds);
    NewestFirstIsTotalPreorder();
    Sorting.SortByStableAll(joined, NewestFirst());
    Sorting.SortBySorted(joined, NewestFirst());
    Sorting.SortByMembers(joined, NewestFirst());
    Sorting.SortBy(joined, NewestFirst())
  }

  // ------------------------------------------------------ registered events

  function EarliestFirst(parse: DateParser): (Event, Event) -> bool {
    (a: Event, b: Event) => EventDateMillis(a, parse) <= EventDateMillis(b, parse)
  }

  lemma EarliestFirstIsTotalPreorder(parse: DateParser)
    ensures Sorting.TotalPreorder(EarliestFirst(parse))
  {
  }

  /** The events the user registered for, earliest first. */
  function RegisteredEvents(events: seq<Event>, registeredEventIds: set<string>, parse: DateParser): (r: seq<Event>)
    ensures multiset(r) == multiset(Lists.Filter(events, (e: Event) => e.id in registeredEventIds))
    ensures forall e :: e in r <==> e in events && e.id in registeredEventIds
    ensures Sorting.SortedBy(r, EarliestFirst(parse))
    ensures forall x :: Lists.Filter(r, Sorting.Ties(EarliestFirst(parse), x))
                     == Lists.Filter(Lists.Filter(events, (e: Event) => e.id in registeredEventIds),
                                     Sorting.Ties(EarliestFirst(parse), x))
  {
    var registered := Lists.Filter(events, (e: Event) => e.id in registeredEventIds);
    EarliestFirstIsTotalPreorder(parse);
    Sorting.SortByStableAll(registered, EarliestFirst(parse));
    Sorting.SortBySorted(registered, EarliestFirst(parse));
    Sorting.SortByMembers(registered, EarliestFirst(parse));
    Sorting.SortBy(registered, EarliestFirst(parse))
  }

  // -------------------------------------------------------- upcoming events

  /** Still to come: not dated in the past (an undated event counts as upcoming). */
  predicate IsUpcoming(when: int, now: int) {
    when == Int32.LONG_MAX || when >= now
  }

  function BySecond(): ((Event, int), (Event, int)) -> bool {
    (p: (Event, int), q: (Event, int)) => p.1 <= q.1
  }

  lemma BySecondIsTotalPreorder()
    ensures Sorting.TotalPreorder(BySecond())
  {
  }

  /** Each event paired with its instant, in input order. */
  function Dated(events: seq<Event>, when: Event -> int): (r: seq<(Event, int)>)
    ensures |r| == |events|
    ensures forall i :: 0 <= i < |events| ==> r[i] == (events[i], when(events[i]))
  {
    Lists.Map(events, (e: Event) => (e, when(e)))
  }

  function UpcomingAt(now: int): ((Event, int)) -> bool {
    (p: (Event, int)) => IsUpcoming(p.1, now)
  }

  /** The upcoming pairs, in input order. */
  function UpcomingPairs(events: seq<Event>, when: Event -> int, now: int): (r: seq<(Event, int)>)
    ensures forall p :: p in r ==> p.0 in events && p.1 == when(p.0) && IsUpcoming(p.1, now)
    ensures forall e :: e in events && IsUpcoming(when(e), now) ==> (e, when(e)) in r
  {
    var dated := Dated(events, when);
    var r := Lists.Filter(dated, UpcomingAt(now));
    forall p | p in r
      ensures p.0 in events && p.1 == when(p.0) && IsUpcoming(p.1, now)
    {
      var i :| 0 <= i < |dated| && dated[i] == p;
    }
    forall e | e in events && IsUpcoming(when(e), now)
      ensures (e, when(e)) in r
    {
      var i :| 0 <= i < |events| && events[i] == e;
      assert dated[i] == (e, when(e));
    }
    r
  }

  /** Every upcoming event paired with its instant, earliest first. */
  function UpcomingDated(events: seq<Event>, when: Event -> int, now: int): (r: seq<(Event, int)>)
    ensures forall p :: p in r ==> p.0 in events && p.1 == when(p.0) && IsUpcoming(p.1, now)
    ensures forall e :: e in events && IsUpcoming(when(e), now) ==> (e, when(e)) in r
    ensures Sorting.SortedBy(r, BySecond())
    ensures forall x :: Lists.Filter(r, Sorting.Ties(BySecond(), x))
                     == Lists.Filter(UpcomingPairs(events, when, now), Sorting.Ties(BySecond(), x))
  {
    var kept := UpcomingPairs(events, when, now);
    BySecondIsTotalPreorder();
    Sorting.SortByStableAll(kept, BySecond());
    Sorting.SortBySorted(kept, BySecond());
    Sorting.SortByMembers(kept, BySecond());
    Sorting.SortBy(kept, BySecond())
  }

  /** The upcoming pairs by position: each an upcoming event with its instant, in order. */
  lemma UpcomingDatedByIndex(events: seq<Event>, when: Event -> int, now: int)
    ensures var sorted := UpcomingDated(events, when, now);
            && (forall i :: 0 <= i < |sorted| ==>
                  sorted[i].0 in events && sorted[i].1 == when(sorted[i].0) && IsUpcoming(sorted[i].1, now))
            && (forall i, j :: 0 <= i < j < |sorted| ==> sorted[i].1 <= sorted[j].1)
  {
    var sorted := UpcomingDated(events, when, now);
    assert forall i :: 0 <= i < |sorted| ==> sorted[i] in sorted;
    assert forall i, j :: 0 <= i < j < |sorted| ==> BySecond()(sorted[i], sorted[j]);
  }

  /** The events of the pairs, in order. */
  function Firsts(pairs: seq<(Event, int)>): (r: seq<Event>)
    ensures |r| == |pairs|
    ensures forall i :: 0 <= i < |pairs| ==> r[i] == pairs[i].0
  {
    Lists.Map(pairs, (p: (Event, int)) => p.0)
  }

  /** The key the dashboard orders events by. */
  function EventDate(parse: DateParser): Event -> int {
    (e: Event) => EventDateMillis(e, parse)
  }

  /**
   * The first three upcoming events, earliest first. The dashboard passes
   * `EventDate(parse)` as `when`; the derivation holds for any key.
   */
  function UpcomingEvents(events: seq<Event>, when: Event -> int, now: int): (r: seq<Event>)
    ensures |r| <= UPCOMING_COUNT
    ensures forall i :: 0 <= i < |r| ==> r[i] in events && IsUpcoming(when(r[i]), now)
    ensures forall i, j :: 0 <= i < j < |r| ==> when(r[i]) <= when(r[j])
  {
    var sorted := UpcomingDated(events, when, now);
    UpcomingDatedByIndex(events, when, now);
    TakeFirsts(sorted, UPCOMING_COUNT);
    Lists.Take(Firsts(sorted), UPCOMING_COUNT)
  }

  /** The first `n` events of the pairs are the events of the first `n` pairs. */
  lemma TakeFirsts(pairs: seq<(Event, int)>, n: nat)
    ensures var r := Lists.Take(Firsts(pairs), n);
            && |r| <= n && |r| <= |pairs|
            && forall i :: 0 <= i < |r| ==> r[i] == pairs[i].0
  {
  }

  /**
   * Nothing upcoming is passed over for something later: an upcoming event
   * left out of the list means the list is full and no later than it.
   */
  lemma {:induction false} UpcomingSkipsOnlyLater(events: seq<Event>, when: Event -> int, now: int, e: Event)
    requires e in events && IsUpcoming(when(e), now)
    requires e !in UpcomingEvents(events, when, now)
    ensures |UpcomingEvents(events, when, now)| == UPCOMING_COUNT
    ensures forall i :: 0 <= i < UPCOMING_COUNT ==>
      when(UpcomingEvents(events, when, now)[i]) <= when(e)
  {
    var sorted := UpcomingDated(events, when, now);
    UpcomingDatedByIndex(events, when, now);
    var r := UpcomingEvents(events, when, now);
    assert r == Lists.Take(Firsts(sorted), UPCOMING_COUNT);
    var k :| 0 <= k < |sorted| && sorted[k] == (e, when(e));
    assert k >= UPCOMING_COUNT;
    forall i | 0 <= i < UPCOMING_COUNT
      ensures when(r[i]) <= when(e)
    {
      assert r[i] == sorted[i].0;
      assert sorted[i].1 <= sorted[k].1;
    }
  }

  // -------------------------------------------------------------- top clubs

  /** Newest first; equal creation times by lower-cased name. */
  function NewestThenName(): (Club, Club) -> bool {
    (a: Club, b: Club) =>
      CreatedMillis(a) > CreatedMillis(b)
      || (CreatedMillis(a) == CreatedMillis(b) && Text.LexLe(Text.Lowercase(a.name), Text.Lowercase(b.name)))
  }

  lemma NewestThenNameIsTotalPreorder()
    ensures Sorting.TotalPreorder(NewestThenName())
  {
    var le := NewestThenName();
    forall a: Club, b: Club ensures le(a, b) || le(b, a) {
      Text.LexTotal(Text.Lowercase(a.name), Text.Lowercase(b.name));
    }
    forall a: Club, b: Club, c: Club | le(a, b) && le(b, c) ensures le(a, c) {
      if CreatedMillis(a) == CreatedMillis(b) == CreatedMillis(c) {
        Text.LexTransitive(Text.Lowercase(a.name), Text.Lowercase(b.name), Text.Lowercase(c.name));
      }
    }
  }

  /** At most five clubs, newest first, ties by lower-cased name. */
  function TopClubs(clubs: seq<Club>): (r: seq<Club>)
    ensures |r| == Lists.Min(TOP_CLUB_COUNT, |clubs|)
    ensures forall c :: c in r ==> c in clubs
    ensures Sorting.SortedBy(r, NewestThenName())
    ensures r <= Sorting.SortBy(clubs, NewestThenName())
    ensures forall x :: Lists.Filter(r, Sorting.Ties(NewestThenName(), x))
                     <= Lists.Filter(clubs, Sorting.Ties(NewestThenName(), x))
  {
    var sorted := Sorting.SortBy(clubs, NewestThenName());
    NewestThenNameIsTotalPreorder();
    Sorting.SortBySorted(clubs, NewestThenName());
    Sorting.SortByMembers(clubs, NewestThenName());
    TopClubsKeepTieOrder(clubs, Lists.Take(sorted, TOP_CLUB_COUNT));
    Lists.Take(sorted, TOP_CLUB_COUNT)
  }

  /** A prefix of the stable sort lists tied clubs in their input order. */
  lemma TopClubsKeepTieOrder(clubs: seq<Club>, top: seq<Club>)
    requires top <= Sorting.SortBy(clubs, NewestThenName())
    ensures forall x :: Lists.Filter(top, Sorting.Ties(NewestThenName(), x))
                     <= Lists.Filter(clubs, Sorting.Ties(NewestThenName(), x))
  {
    var sorted := Sorting.SortBy(clubs, NewestThenName());
    NewestThenNameIsTotalPreorder();
    forall x ensures Lists.Filter(top, Sorting.Ties(NewestThenName(), x))
                  <= Lists.Filter(clubs, Sorting.Ties(NewestThenName(), x)) {
      Sorting.SortByStable(clubs, NewestThenName(), x);
      assert sorted == top + sorted[|top|..];
      Lists.FilterAppend(top, sorted[|top|..], Sorting.Ties(NewestThenName(), x));
    }
  }

  /** The personalised sections show iff there is a registered event or a joined club. */
  function HasPersonalizedData(registered: seq<Event>, joined: seq<Club>): bool {
    |registered| > 0 || |joined| > 0
  }

  /** The personalised dashboard shows exactly when some event id or club id matches. */
  lemma PersonalizedIff(clubs: seq<Club>, myClubIds: set<string>, events: seq<Event>,
                        registeredEventIds: set<string>, parse: DateParser)
    ensures HasPersonalizedData(RegisteredEvents(events, registeredEventIds, parse), JoinedClubs(clubs, myClubIds))
        <==> (exists i :: 0 <= i < |events| && events[i].id in registeredEventIds)
             || (exists i :: 0 <= i < |clubs| && clubs[i].id in myClubIds)
  {
    var registered := RegisteredEvents(events, registeredEventIds, parse);
    var joined := JoinedClubs(clubs, myClubIds);
    if exists i :: 0 <= i < |events| && events[i].id in registeredEventIds {
      var i :| 0 <= i < |events| && events[i].id in registeredEventIds;
      assert events[i] in registered;
    }
    if exists i :: 0 <= i < |clubs| && clubs[i].id in myClubIds {
      var i :| 0 <= i < |clubs| && clubs[i].id in myClubIds;
      assert clubs[i] in joined;
    }
    if |registered| > 0 {
      assert registered[0] in registered;
    }
    if |joined| > 0 {
      assert joined[0] in joined;
    }
  }
}
