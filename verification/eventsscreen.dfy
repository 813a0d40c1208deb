/**
 * `StudentEventsScreen`: the title search, the registration count each card
 * shows, the Register/Cancel choice and the empty-list message.
 */
module EventsScreen {
  import opened Wrappers
  import opened Records
  import Text
  import Lists
  import Int32
  import EventVm

  const NO_EVENTS: string := "No events yet."

  function TitleMatches(query: string): Event -> bool {
    (e: Event) => Text.ContainsIgnoreCase(e.title, query)
  }

  /**
   * The events listed for a search: all of them, in order, for a blank query;
   * otherwise, in order, those whose title contains the trimmed query ignoring case.
   */
  function FilteredEvents(events: seq<Event>, searchQuery: string): (r: seq<Event>)
    ensures Text.IsBlank(searchQuery) ==> r == events
    ensures !Text.IsBlank(searchQuery) ==> r == Lists.Filter(events, TitleMatches(Text.Trim(searchQuery)))
  {
    var query := Text.Trim(searchQuery);
    Text.BlankAfterTrim(searchQuery);
    if Text.IsBlank(query) then events else Lists.Filter(events, TitleMatches(query))
  }

  /** An event is listed iff it is one of the events and, for a non-blank query, its title contains the query. */
  lemma FilteredMembers(events: seq<Event>, searchQuery: string, e: Event)
    ensures e in FilteredEvents(events, searchQuery) <==>
      e in events && (Text.IsBlank(searchQuery) || exists at :: Text.OccursAt(e.title, Text.Trim(searchQuery), at))
  {
    var r := FilteredEvents(events, searchQuery);
    if !Text.IsBlank(searchQuery) && e in events && exists at :: Text.OccursAt(e.title, Text.Trim(searchQuery), at) {
      var i :| 0 <= i < |events| && events[i] == e;
      assert TitleMatches(Text.Trim(searchQuery))(events[i]);
    }
    if !Text.IsBlank(searchQuery) && e in r {
      assert TitleMatches(Text.Trim(searchQuery))(e);
    }
  }

  /**
   * The count a card shows: the stored count, plus one for the user's own
   * registration, in Kotlin's 32-bit `Int` arithmetic.
   */
  function DisplayedRegistrations(e: Event, registeredEventIds: set<string>): (r: int)
    ensures Int32.InRange(r)
    ensures Int32.InRange(e.registrationCount) && e.registrationCount < Int32.MAX && e.id in registeredEventIds ==>
      r == e.registrationCount + 1
    ensures Int32.InRange(e.registrationCount) && e.id !in registeredEventIds ==> r == e.registrationCount
  {
    Int32.Wrap(e.registrationCount + if e.id in registeredEventIds then 1 else 0)
  }

  /** The button a card offers. */
  datatype CardAction = CancelRegistration(eventId: string) | RegisterFor(eventId: string)

  /** A registered event offers Cancel, any other Register; both are disabled while loading. */
  function ActionFor(e: Event, registeredEventIds: set<string>): (a: CardAction)
    ensures a.eventId == e.id
    ensures a.CancelRegistration? <==> e.id in registeredEventIds
  {
    if e.id in registeredEventIds then CancelRegistration(e.id) else RegisterFor(e.id)
  }

  predicate ActionEnabled(loading: bool) {
    !loading
  }

  /**
   * The offered action, once its write succeeds, flips the card: the other
   * action is offered next, and the count changes by one.
   */
  lemma ActionFlips(s: EventVm.State, e: Event)
    requires Int32.InRange(e.registrationCount) && e.registrationCount < Int32.MAX
    ensures var ids := s.registeredEventIds;
            var next := match ActionFor(e, ids)
                        case RegisterFor(id) => EventVm.OnRegistered(s, id, Succeeded)
                        case CancelRegistration(id) => EventVm.OnCancelled(s, id, Succeeded);
            && ActionFor(e, next.registeredEventIds).CancelRegistration? == !ActionFor(e, ids).CancelRegistration?
            && DisplayedRegistrations(e, next.registeredEventIds) - DisplayedRegistrations(e, ids)
               == (if e.id in ids then -1 else 1)
  {
  }

  /**
   * The message in place of an empty list (not while loading): which one
   * depends on the raw query, shown in quotes.
   */
  function EmptyMessage(filtered: seq<Event>, loading: bool, searchQuery: string): (m: Option<string>)
    ensures m.Some? <==> filtered == [] && !loading
    ensures m.Some? && Text.IsBlank(searchQuery) ==> m.value == NO_EVENTS
    ensures m.Some? && !Text.IsBlank(searchQuery) ==> m.value == "No events found for \"" + searchQuery + "\"."
  {
    if filtered == [] && !loading then
      Some(if Text.IsBlank(searchQuery) then NO_EVENTS else "No events found for \"" + searchQuery + "\".")
    else None
  }

  /** A blank search never reports "not found": with no match it says there are no events at all. */
  lemma BlankSearchNeverNotFound(events: seq<Event>, searchQuery: string)
    requires Text.IsBlank(searchQuery)
    ensures EmptyMessage(FilteredEvents(events, searchQuery), false, searchQuery).Some? <==> events == []
    ensures events == [] ==> EmptyMessage(FilteredEvents(events, searchQuery), false, searchQuery) == Some(NO_EVENTS)
  {
  }
}
