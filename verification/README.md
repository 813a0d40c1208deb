# Campus Connect, modelled in Dafny

Campus Connect is an Android app (Kotlin, Jetpack Compose, Firebase) for a
campus: students browse events, register for them, join clubs, read
announcements and ask an AI assistant; admins publish events, clubs and
announcements and look at reports. This project models the app's client
logic: the view models, the decisions the screens take on a click, the
navigation between screens, and the figures the dashboards derive.

Firebase is never called. Every remote call a view model or a screen makes
(`addSnapshotListener`, `add`, `update`, `set`, `delete`, `get`, `putFile`,
`signIn…`, the language-model request) is an `Effect` value in the result of
the operation that issues it (`Records.Effect`). Every callback that the SDK
would run later (a snapshot, a success, a failure) is a separate function
that takes the delivered value and the current state. A stored document is a
`Records.Doc`: an id and a map from field to value. The timestamps, the
current user's uid and the language-model API key are parameters.

Modules, following the app's packages:

- `Wrappers`, `Text`, `Lists`, `Int32`, `Sorting` and `Decimal` hold the Kotlin
  library behaviour the app relies on: `trim`, `isBlank`, `lowercase`,
  `contains(ignoreCase)`, `filter`, `take`, `takeLast`, the stable
  `sortedBy`/`sortedWith`, `sumOf` on 32-bit `Int`, and `Long.toString()`.
- `Records` holds the data classes, the document shape and the effects.
- `ClubVm` and `ClubFeed` model `ClubViewModel.kt`. `ClubFeed` is the merged
  feed of recent announcements of the user's clubs: one listener per club,
  each snapshot replacing that club's slice, and the result kept sorted
  newest first.
- `EventVm`, `AnnouncementVm`, `AuthVm`, `ProfileVm` and `AiChatVm` model the
  other view models.
- `AiChatScreen`, `Dashboard`, `EventsScreen`, `Reports`,
  `ClubAnnouncementsScreen`, `ProfileScreen`, `ImageForm`, `AdminClubsScreen`,
  `AdminEventsScreen` and `AdminPostAnnouncementScreen` model the screens'
  logic. `ImageForm` is the image-upload form shared by the admin clubs and
  admin events screens.
- `Navigation` models `AppRoot` in `MainActivity.kt`: the screen state, the
  transitions, and the proof that the admin screens are reached only after
  an "admin" login with no logout since.

Leaving a club cancels that club's listener for the merged feed but does
not purge the club's entries: a later snapshot of another club replaces only
that other club's slice, so the left club's entries stay. The model follows
the code here (`ClubFeed.LeaveKeepsEntries`, on the example of clubs A and B).

A Kotlin `String` is a sequence of UTF-16 code units, while a Dafny string is
a sequence of Unicode scalar values. Where the app measures, cuts or compares
strings (`length`, `take`, `compareTo`, and `Char` tests on each unit), the
model works on the UTF-16 encoding (`Text.Utf16`), in which a character
beyond U+FFFF is a surrogate pair of two units.

## Model

| member | source | states |
|---|---|---|
| Records.Merge | app/src/main/java/com/example/campusconnect/clubs/ClubViewModel.kt:297-299 | an `update` of a document replaces exactly the written fields and keeps every other field and the id |
| Records.AfterWrite | app/src/main/java/com/example/campusconnect/clubs/ClubViewModel.kt:268-274 | a write's completion ends loading; success leaves no error, failure shows the failure's message |
| Text.Trim | app/src/main/java/com/example/campusconnect/clubs/ClubViewModel.kt:259-261 | the trimmed text neither starts nor ends with whitespace, is no longer than the input, and is empty iff the input is blank |
| Text.TrimSlice | app/src/main/java/com/example/campusconnect/clubs/ClubViewModel.kt:259-261 | the trimmed text is the slice of the input between a blank prefix and a blank suffix |
| Text.TrimIdempotent | app/src/main/java/com/example/campusconnect/clubs/ClubViewModel.kt:259-261 | trimming twice is trimming once |
| Text.BlankAfterTrim | app/src/main/java/com/example/campusconnect/auth/UserProfileViewModel.kt:83-88 | a text is blank exactly when its trimmed form is blank |
| Text.IfBlank | app/src/main/java/com/example/campusconnect/dashboard/AdminReportsAnalyticsScreen.kt:303 | `ifBlank`: the alternative exactly when the text is blank, otherwise the text itself |
| Text.ContainsIgnoreCase | app/src/main/java/com/example/campusconnect/events/StudentEventsScreen.kt:45 | `contains(query, ignoreCase = true)`: true iff the needle occurs at some position of the haystack after case folding |
| Text.LexTotal | app/src/main/java/com/example/campusconnect/dashboard/StudentDashboard.kt:113-115 | `compareTo` on strings, unit by unit over UTF-16, is total (the name tie-break needs it) |
| Text.LexTransitive | app/src/main/java/com/example/campusconnect/dashboard/StudentDashboard.kt:113-115 | `compareTo` on strings over UTF-16 units is transitive |
| Text.SurrogatesSortBelowHighBasicPlane | app/src/main/java/com/example/campusconnect/dashboard/StudentDashboard.kt:113-115 | U+1F600 sorts before U+FF21, as its high surrogate does, although its code point is larger |
| Text.Utf16CharDecodes | app/src/main/java/com/example/campusconnect/ai/StudentAiChatScreen.kt:304-305 | a character is one code unit equal to itself, or a high and a low surrogate that decode back to it |
| Text.Utf16Length | app/src/main/java/com/example/campusconnect/auth/AuthViewModel.kt:183 | `length` lies between the number of characters and twice that |
| Text.Utf16LengthAppend | app/src/main/java/com/example/campusconnect/ai/StudentAiChatScreen.kt:304-305 | `length` of a concatenation is the sum of the lengths |
| Text.BasicPlaneLength | app/src/main/java/com/example/campusconnect/auth/AuthViewModel.kt:183 | without characters beyond U+FFFF, `length` is the number of characters |
| Text.TakeUnits | app/src/main/java/com/example/campusconnect/ai/StudentAiChatScreen.kt:305 | `take(n)` on units: a prefix of the text within n units, and the next character would not fit |
| Text.TakeUnitsLength | app/src/main/java/com/example/campusconnect/ai/StudentAiChatScreen.kt:305 | from a text of at least n units, `take(n)` keeps exactly n units, or n-1 only when the next character is a surrogate pair |
| Text.NormalizeRemovesCarriageReturns | app/src/main/java/com/example/campusconnect/ai/StudentAiChatScreen.kt:287-299 | after `lines()` and a join with "\n", no carriage return is left |
| Text.NormalizeKeepsPlainText | app/src/main/java/com/example/campusconnect/ai/StudentAiChatScreen.kt:287-299 | a text without carriage returns is unchanged by splitting into lines and joining with "\n" |
| Text.NormalizeKeepsFinalBreak | app/src/main/java/com/example/campusconnect/ai/StudentAiChatScreen.kt:299 | a text ending in a line feed still ends in one, so the last (empty) line exists to be dropped |
| Text.NormalizeAppend | app/src/main/java/com/example/campusconnect/ai/StudentAiChatScreen.kt:287-299 | line-break normalization distributes over a split that does not separate "\r" from "\n" |
| Text.NormalizeDropsFinalBreak | app/src/main/java/com/example/campusconnect/ai/StudentAiChatScreen.kt:287-299 | dropping the final line break after normalizing leaves no "\r", and leaves a text without "\r" as it was |
| Text.NormalizeKeepsPrefix | app/src/main/java/com/example/campusconnect/ai/StudentAiChatScreen.kt:287-288 | a leading header without "\r" is still the start of the normalized text |
| Text.CarriageReturnsBecomeLineFeeds | app/src/main/java/com/example/campusconnect/ai/StudentAiChatScreen.kt:287-299 | "a\rb" and "a\r\nb" both become "a\nb" |
| Text.JoinSplit | app/src/main/java/com/example/campusconnect/ai/StudentAiChatScreen.kt:270-285 | `joinToString` at any inner boundary is the join of the two halves with one separator between |
| Lists.Filter | app/src/main/java/com/example/campusconnect/events/StudentEventsScreen.kt:45 | `filter`: the kept elements, in order; an element is kept iff it is in the input and satisfies the test |
| Lists.TakeLast | app/src/main/java/com/example/campusconnect/ai/AiChatViewModel.kt:190 | `takeLast(n)`: the last min(n, size) elements, in order |
| Int32.WrappingSum | app/src/main/java/com/example/campusconnect/dashboard/AdminReportsAnalyticsScreen.kt:60-62 | `sumOf` over Ints is the true sum wrapped to 32 bits, and the true sum whenever that fits |
| Int32.SumAppend | app/src/main/java/com/example/campusconnect/dashboard/AdminReportsAnalyticsScreen.kt:60-62 | the sum of a concatenation is the sum of the sums |
| Sorting.SortBy | app/src/main/java/com/example/campusconnect/clubs/ClubViewModel.kt:230-231 | the sort returns a permutation of its input (stability and order are the lemmas below) |
| Sorting.SortBySorted | app/src/main/java/com/example/campusconnect/clubs/ClubViewModel.kt:231 | the sort's output is sorted by any total preorder |
| Sorting.SortByMembers | app/src/main/java/com/example/campusconnect/clubs/ClubViewModel.kt:231 | the sort keeps exactly the input's elements |
| Sorting.SortByStable | app/src/main/java/com/example/campusconnect/clubs/ClubViewModel.kt:230-231 | stability: the elements tied with any x come out in their input order |
| Sorting.SortByStableAll | app/src/main/java/com/example/campusconnect/dashboard/StudentDashboard.kt:111-116 | stability for every tie class at once |
| Sorting.FilterInsertOther | app/src/main/java/com/example/campusconnect/clubs/ClubViewModel.kt:231 | inserting an element another filter rejects leaves that filter's view unchanged |
| Sorting.FilterInsertFirst | app/src/main/java/com/example/campusconnect/clubs/ClubViewModel.kt:231 | an inserted element that may precede all of its ties lands in front of them |
| Decimal.DigitsRoundTrip | app/src/main/java/com/example/campusconnect/auth/StudentProfileScreen.kt:260-262 | the decimal rendering of a millisecond stamp reads back as the same number |
| Decimal.LongToString | app/src/main/java/com/example/campusconnect/auth/StudentProfileScreen.kt:261 | `Long.toString()`: digits without leading zeros, with a minus sign for negative values |
| ClubFeed.OrderIsTotalPreorder | app/src/main/java/com/example/campusconnect/clubs/ClubViewModel.kt:231 | newest-first with missing timestamps last is a total preorder |
| ClubFeed.SummaryOf | app/src/main/java/com/example/campusconnect/clubs/ClubViewModel.kt:219-227 | a per-club document becomes a summary tagged with the listener's club; a stored title or message is read as stored, a missing one as "" |
| ClubFeed.Incoming | app/src/main/java/com/example/campusconnect/clubs/ClubViewModel.kt:219-227 | every incoming entry is tagged with the listener's club, one per document, in order |
| ClubFeed.Replace | app/src/main/java/com/example/campusconnect/clubs/ClubViewModel.kt:229-231 | a club's snapshot gives a permutation of (other clubs' old entries ++ incoming), sorted newest first with missing timestamps last, entries of equal time in their merged order |
| ClubFeed.ReplaceMembers | app/src/main/java/com/example/campusconnect/clubs/ClubViewModel.kt:229-230 | an entry is in the new feed iff it is an old entry of another club or an incoming one |
| ClubFeed.ReplaceCounts | app/src/main/java/com/example/campusconnect/clubs/ClubViewModel.kt:229-230 | after a snapshot of c, c has exactly the incoming count and every other club keeps its count |
| ClubFeed.Reconcile | app/src/main/java/com/example/campusconnect/clubs/ClubViewModel.kt:200-206 | after a membership update the listener key set equals the new membership set |
| ClubFeed.ApplyMembership | app/src/main/java/com/example/campusconnect/clubs/ClubViewModel.kt:200-234 | the clubs cancelled are exactly the old keys not in the set, those added exactly the new clubs without a key; no club gets a second listener |
| ClubFeed.Step | app/src/main/java/com/example/campusconnect/clubs/ClubViewModel.kt:199-231 | a membership change moves the keys and never changes the feed; a snapshot replaces only its own club's slice |
| ClubFeed.RunKeepsSorted | app/src/main/java/com/example/campusconnect/clubs/ClubViewModel.kt:230-231 | over any trace of events the feed stays sorted newest first |
| ClubFeed.RunWithinLimit | app/src/main/java/com/example/campusconnect/clubs/ClubViewModel.kt:212 | when each per-club query is capped, no club has more than the cap in the feed, over any trace |
| ClubFeed.LeaveKeepsEntries | app/src/main/java/com/example/campusconnect/clubs/ClubViewModel.kt:199-203 | leaving a club cancels its listener but its entries stay in the feed |
| ClubVm.ClubOf | app/src/main/java/com/example/campusconnect/clubs/ClubViewModel.kt:70-79 | id and createdAt from the document; name, description, imageUrl and createdBy are the stored string, or "" when missing |
| ClubVm.MemberOf | app/src/main/java/com/example/campusconnect/clubs/ClubViewModel.kt:120-127 | a member without a `uid` field is identified by the document id; a stored name or email is read as stored, a missing one as "" |
| ClubVm.ClubAnnouncementOf | app/src/main/java/com/example/campusconnect/clubs/ClubViewModel.kt:149-157 | id and createdAt from the document; title, message and createdBy are the stored string, or "" when missing |
| ClubVm.GroupSummaries | app/src/main/java/com/example/campusconnect/clubs/ClubViewModel.kt:177-186 | collection-group documents without an owning club are dropped; each result comes from a document of its club |
| ClubVm.GroupSummariesInOrder | app/src/main/java/com/example/campusconnect/clubs/ClubViewModel.kt:177-186 | the summaries are the owned documents in query order, each `SummaryOf` its owning club (title, message, createdAt) |
| ClubVm.ListenClubs | app/src/main/java/com/example/campusconnect/clubs/ClubViewModel.kt:57-62 | one-shot: a second call is a no-op; the first shows loading and opens one listener |
| ClubVm.ListenMyClubs | app/src/main/java/com/example/campusconnect/clubs/ClubViewModel.kt:86-94 | nothing without a user; otherwise one-shot |
| ClubVm.ListenMembers | app/src/main/java/com/example/campusconnect/clubs/ClubViewModel.kt:105-114 | a no-op for the club already followed; any other club opens a listener with loading shown |
| ClubVm.ListenClubAnnouncements | app/src/main/java/com/example/campusconnect/clubs/ClubViewModel.kt:134-143 | the same guard keyed by the club id |
| ClubVm.ListenRecentClubAnnouncements | app/src/main/java/com/example/campusconnect/clubs/ClubViewModel.kt:164-171 | guarded by the shared started flag |
| ClubVm.ListenRecentForMyClubs | app/src/main/java/com/example/campusconnect/clubs/ClubViewModel.kt:192-238 | guarded by the same flag; starts the membership listener and opens a per-club listener exactly for the member clubs without one |
| ClubVm.OnClubs | app/src/main/java/com/example/campusconnect/clubs/ClubViewModel.kt:64-83 | a snapshot replaces the club list element by element and ends loading |
| ClubVm.OnListFailed | app/src/main/java/com/example/campusconnect/clubs/ClubViewModel.kt:65-67 | a failing list listener ends loading with the failure's message |
| ClubVm.OnBackgroundFailed | app/src/main/java/com/example/campusconnect/clubs/ClubViewModel.kt:95-97 | a failing membership listener sets only the error |
| ClubVm.OnMembers | app/src/main/java/com/example/campusconnect/clubs/ClubViewModel.kt:120-130 | a members snapshot replaces the member list and ends loading |
| ClubVm.OnClubAnnouncements | app/src/main/java/com/example/campusconnect/clubs/ClubViewModel.kt:149-160 | a club-announcement snapshot replaces the list and ends loading |
| ClubVm.OnRecentGroup | app/src/main/java/com/example/campusconnect/clubs/ClubViewModel.kt:177-188 | the collection-group snapshot replaces the recent list and keeps the listener keys |
| ClubVm.OnMyClubIds | app/src/main/java/com/example/campusconnect/clubs/ClubViewModel.kt:199-206 | the membership listener: cancels exactly the keys of clubs left, opens exactly those of clubs joined, never touches the feed |
| ClubVm.OnClubFeed | app/src/main/java/com/example/campusconnect/clubs/ClubViewModel.kt:213-231 | a per-club snapshot changes only the merged feed |
| ClubVm.CreateClubPayload | app/src/main/java/com/example/campusconnect/clubs/ClubViewModel.kt:258-264 | the create payload holds the trimmed texts, the time and the author |
| ClubVm.UpdateClubPayload | app/src/main/java/com/example/campusconnect/clubs/ClubViewModel.kt:291-295 | the update payload holds exactly the three trimmed texts |
| ClubVm.CreatedClubReadsBack | app/src/main/java/com/example/campusconnect/clubs/ClubViewModel.kt:258-267 | a created club reads back with the trimmed texts, its time and author |
| ClubVm.UpdatedClubReadsBack | app/src/main/java/com/example/campusconnect/clubs/ClubViewModel.kt:291-299 | an updated club reads back with the new trimmed texts and the old time and author |
| ClubVm.CreateClub | app/src/main/java/com/example/campusconnect/clubs/ClubViewModel.kt:246-267 | blank name or description first, then the user; only then loading and one added document |
| ClubVm.UpdateClub | app/src/main/java/com/example/campusconnect/clubs/ClubViewModel.kt:284-299 | the blank check, no login check, one update of the club |
| ClubVm.DeleteClub | app/src/main/java/com/example/campusconnect/clubs/ClubViewModel.kt:309-314 | always loading and one delete |
| ClubVm.JoinClub | app/src/main/java/com/example/campusconnect/clubs/ClubViewModel.kt:323-331 | no user is an error; otherwise loading and a fetch of the user's profile |
| ClubVm.MemberPayload | app/src/main/java/com/example/campusconnect/clubs/ClubViewModel.kt:333-340 | the member document holds the uid, the profile's name and email (or "") and the time |
| ClubVm.JoinedMemberReadsBack | app/src/main/java/com/example/campusconnect/clubs/ClubViewModel.kt:333-340 | the written member reads back with the uid, name, email and time |
| ClubVm.JoinWrites | app/src/main/java/com/example/campusconnect/clubs/ClubViewModel.kt:342-353 | a join writes the member document and then the user's club entry |
| ClubVm.LeaveClub | app/src/main/java/com/example/campusconnect/clubs/ClubViewModel.kt:366-385 | no user is an error; otherwise both membership documents are deleted |
| ClubVm.ClubAnnouncementPayload | app/src/main/java/com/example/campusconnect/clubs/ClubViewModel.kt:412-417 | the trimmed title and message, the time and the author |
| ClubVm.PostedClubAnnouncementReadsBack | app/src/main/java/com/example/campusconnect/clubs/ClubViewModel.kt:412-422 | a posted club announcement reads back with the trimmed texts |
| ClubVm.PostClubAnnouncement | app/src/main/java/com/example/campusconnect/clubs/ClubViewModel.kt:400-422 | blank texts first, then the user; otherwise one added document in the club's collection |
| ClubVm.Complete | app/src/main/java/com/example/campusconnect/clubs/ClubViewModel.kt:268-274 | a write's completion changes only the UI state |
| ClubVm.ClearError | app/src/main/java/com/example/campusconnect/clubs/ClubViewModel.kt:432-434 | only the error is cleared; loading stays |
| ClubVm.ListenTwiceIsNoOp | app/src/main/java/com/example/campusconnect/clubs/ClubViewModel.kt:57-166 | every listen guard makes a repeated call a no-op |
| ClubVm.RecentThenForMyClubs | app/src/main/java/com/example/campusconnect/clubs/ClubViewModel.kt:164-194 | after the collection-group listener, the fan-in is a no-op with no effects; it never starts the membership listener |
| EventVm.EventOf | app/src/main/java/com/example/campusconnect/events/EventViewModel.kt:48-60 | each stored text is read as stored and a missing one as ""; a missing count is 0, and the Long count is narrowed to a 32-bit Int |
| EventVm.ListenEvents | app/src/main/java/com/example/campusconnect/events/EventViewModel.kt:34-41 | one-shot: the first call shows loading and opens the listener |
| EventVm.OnEvents | app/src/main/java/com/example/campusconnect/events/EventViewModel.kt:42-63 | a snapshot replaces the events and ends loading |
| EventVm.OnEventsFailed | app/src/main/java/com/example/campusconnect/events/EventViewModel.kt:43-45 | a failure ends loading with its message |
| EventVm.ListenMyRegistrations | app/src/main/java/com/example/campusconnect/events/EventViewModel.kt:159-170 | the started flag is set before the login check; with no user the set is emptied |
| EventVm.OnRegistrations | app/src/main/java/com/example/campusconnect/events/EventViewModel.kt:181-184 | the registered ids are exactly the snapshot's document ids |
| EventVm.OnRegistrationsFailed | app/src/main/java/com/example/campusconnect/events/EventViewModel.kt:172-178 | permission denied empties the set; any other failure sets the error |
| EventVm.CreateEventPayload | app/src/main/java/com/example/campusconnect/events/EventViewModel.kt:87-96 | all texts trimmed and registrationCount 0 |
| EventVm.UpdateEventPayload | app/src/main/java/com/example/campusconnect/events/EventViewModel.kt:125-131 | exactly the five trimmed texts |
| EventVm.CreatedEventReadsBack | app/src/main/java/com/example/campusconnect/events/EventViewModel.kt:87-99 | a created event reads back with trimmed texts and count 0 |
| EventVm.UpdatedEventReadsBack | app/src/main/java/com/example/campusconnect/events/EventViewModel.kt:125-135 | an updated event keeps its count, time and author |
| EventVm.CreateEvent | app/src/main/java/com/example/campusconnect/events/EventViewModel.kt:75-99 | any blank field gives "All fields are required" and no write; then the login check |
| EventVm.UpdateEvent | app/src/main/java/com/example/campusconnect/events/EventViewModel.kt:118-135 | the blank check and one update |
| EventVm.DeleteEvent | app/src/main/java/com/example/campusconnect/events/EventViewModel.kt:145-150 | loading and one delete |
| EventVm.Complete | app/src/main/java/com/example/campusconnect/events/EventViewModel.kt:100-106 | the completion changes only the UI state |
| EventVm.Register | app/src/main/java/com/example/campusconnect/events/EventViewModel.kt:188-203 | no user is an error; otherwise loading and a fetch of the profile |
| EventVm.RegistrationPayload | app/src/main/java/com/example/campusconnect/events/EventViewModel.kt:205-212 | uid, event id and time; name and profileImageUrl are the profile's strings or ""; email is the profile's or the auth email; a failed fetch writes "" and the auth email |
| EventVm.FetchFailureLikeEmptyProfile | app/src/main/java/com/example/campusconnect/events/EventViewModel.kt:228-236 | a failed profile fetch writes what an empty profile would give |
| EventVm.RegistrationWrite | app/src/main/java/com/example/campusconnect/events/EventViewModel.kt:196-214 | the registration is a plain set of the user's registration document |
| EventVm.FailureText | app/src/main/java/com/example/campusconnect/events/EventViewModel.kt:220-224 | permission denied gives the fixed text; otherwise the message or the default |
| EventVm.OnRegistered | app/src/main/java/com/example/campusconnect/events/EventViewModel.kt:214-226 | success adds the event id; failure keeps the set |
| EventVm.Cancel | app/src/main/java/com/example/campusconnect/events/EventViewModel.kt:254-267 | no user is an error; otherwise one delete |
| EventVm.OnCancelled | app/src/main/java/com/example/campusconnect/events/EventViewModel.kt:267-279 | success removes the event id; failure keeps the set |
| EventVm.ClearError | app/src/main/java/com/example/campusconnect/events/EventViewModel.kt:282-284 | only the error is cleared |
| AnnouncementVm.AnnouncementOf | app/src/main/java/com/example/campusconnect/announcements/AnnouncementViewModel.kt:43-51 | title, message and createdBy are read as stored, or "" when missing |
| AnnouncementVm.ListenAnnouncements | app/src/main/java/com/example/campusconnect/announcements/AnnouncementViewModel.kt:29-37 | one-shot listener with loading shown |
| AnnouncementVm.ListenTwiceIsNoOp | app/src/main/java/com/example/campusconnect/announcements/AnnouncementViewModel.kt:30-31 | a second call is a no-op |
| AnnouncementVm.OnAnnouncements | app/src/main/java/com/example/campusconnect/announcements/AnnouncementViewModel.kt:43-54 | a snapshot replaces the list and ends loading |
| AnnouncementVm.OnAnnouncementsFailed | app/src/main/java/com/example/campusconnect/announcements/AnnouncementViewModel.kt:38-40 | a failure ends loading with its message |
| AnnouncementVm.PostPayload | app/src/main/java/com/example/campusconnect/announcements/AnnouncementViewModel.kt:71-76 | trimmed title and message, the time and createdBy = uid |
| AnnouncementVm.UpdatePayload | app/src/main/java/com/example/campusconnect/announcements/AnnouncementViewModel.kt:97-100 | only the trimmed title and message |
| AnnouncementVm.PostedReadsBack | app/src/main/java/com/example/campusconnect/announcements/AnnouncementViewModel.kt:71-79 | a posted announcement reads back with the trimmed texts and the author |
| AnnouncementVm.UpdatedReadsBack | app/src/main/java/com/example/campusconnect/announcements/AnnouncementViewModel.kt:97-104 | an update changes only the title and message |
| AnnouncementVm.Post | app/src/main/java/com/example/campusconnect/announcements/AnnouncementViewModel.kt:58-79 | blank texts first, the login check only after; otherwise loading and one added document |
| AnnouncementVm.Update | app/src/main/java/com/example/campusconnect/announcements/AnnouncementViewModel.kt:89-104 | the blank check and one update |
| AnnouncementVm.Delete | app/src/main/java/com/example/campusconnect/announcements/AnnouncementViewModel.kt:114-119 | loading and one delete |
| AnnouncementVm.Complete | app/src/main/java/com/example/campusconnect/announcements/AnnouncementViewModel.kt:80-86 | success ends loading with no error; failure shows the message |
| AnnouncementVm.ClearError | app/src/main/java/com/example/campusconnect/announcements/AnnouncementViewModel.kt:128-130 | only the error is cleared |
| AuthVm.ValidateStrongPassword | app/src/main/java/com/example/campusconnect/auth/AuthViewModel.kt:182-189 | no message iff strong; otherwise the first failing check of: at least 8 UTF-16 units, an upper, a lower, a digit, a non-letter-or-digit unit |
| AuthVm.SupplementaryCharacterCountsTwice | app/src/main/java/com/example/campusconnect/auth/AuthViewModel.kt:183 | seven characters, one beyond U+FFFF, already pass the length check |
| AuthVm.ScanClassifies | app/src/main/java/com/example/campusconnect/auth/AuthViewModel.kt:30 | the scanner's states classify every prefix against the email pattern |
| AuthVm.IsValidEmail | app/src/main/java/com/example/campusconnect/auth/AuthViewModel.kt:178-180 | accepted iff a non-empty local part over the local characters, one '@', and a non-empty domain over the domain characters |
| AuthVm.RoleFor | app/src/main/java/com/example/campusconnect/auth/AuthViewModel.kt:56 | "admin" iff the trimmed code equals the secret code, else "student" |
| AuthVm.UserPayload | app/src/main/java/com/example/campusconnect/auth/AuthViewModel.kt:69-74 | the user document holds the name, email, role and time |
| AuthVm.Register | app/src/main/java/com/example/campusconnect/auth/AuthViewModel.kt:36-57 | blank fields, then the email, then the password; the account is created only when all pass |
| AuthVm.OnAccountCreated | app/src/main/java/com/example/campusconnect/auth/AuthViewModel.kt:60-74 | a created account writes the user document with the derived role |
| AuthVm.RegisteredRoleReadsBack | app/src/main/java/com/example/campusconnect/auth/AuthViewModel.kt:69-74 | the role written at registration is the role read back at login |
| AuthVm.OnAccountFailed | app/src/main/java/com/example/campusconnect/auth/AuthViewModel.kt:85-90 | a failed creation shows its message |
| AuthVm.Login | app/src/main/java/com/example/campusconnect/auth/AuthViewModel.kt:96-109 | blank fields, then the email; only then loading and a sign-in |
| AuthVm.LoginFailureMessage | app/src/main/java/com/example/campusconnect/auth/AuthViewModel.kt:121-128 | credential errors map to the fixed texts, others to the message |
| AuthVm.LoginFailureMessageChoices | app/src/main/java/com/example/campusconnect/auth/AuthViewModel.kt:121-128 | each mapping case is reachable and distinct |
| AuthVm.OnSignedIn | app/src/main/java/com/example/campusconnect/auth/AuthViewModel.kt:111-117 | a missing uid is an error; otherwise the role is fetched |
| AuthVm.OnRoleFetched | app/src/main/java/com/example/campusconnect/auth/AuthViewModel.kt:152-161 | a missing role defaults to "student" |
| AuthVm.ResetPassword | app/src/main/java/com/example/campusconnect/auth/AuthViewModel.kt:135-150 | a blank email is an error with no call; otherwise one reset mail to the trimmed address |
| AuthVm.ResetState | app/src/main/java/com/example/campusconnect/auth/AuthViewModel.kt:163-165 | back to the default state |
| AuthVm.Logout | app/src/main/java/com/example/campusconnect/auth/AuthViewModel.kt:167-170 | signs out and returns the default state |
| AuthVm.TryRestoreSession | app/src/main/java/com/example/campusconnect/auth/AuthViewModel.kt:172-176 | a signed-in user has the role fetched; otherwise nothing happens |
| ProfileVm.ListenMyProfile | app/src/main/java/com/example/campusconnect/auth/UserProfileViewModel.kt:40-50 | a no-op with no user or when already listening to the same uid; otherwise the old listener is removed and a new one opened |
| ProfileVm.ListenTwiceIsNoOp | app/src/main/java/com/example/campusconnect/auth/UserProfileViewModel.kt:41-42 | a second call for the same user is a no-op |
| ProfileVm.ProfileOf | app/src/main/java/com/example/campusconnect/auth/UserProfileViewModel.kt:56-65 | name, phone, department, yearLevel and profileImageUrl are the stored strings or ""; a blank or missing email falls back to the auth email; no document gives the empty profile |
| ProfileVm.OnProfileFailed | app/src/main/java/com/example/campusconnect/auth/UserProfileViewModel.kt:51-53 | a failing listener ends loading with its message |
| ProfileVm.ProfilePayload | app/src/main/java/com/example/campusconnect/auth/UserProfileViewModel.kt:92-100 | the texts trimmed, the email from auth, the time |
| ProfileVm.ProfilePayloadTrimmed | app/src/main/java/com/example/campusconnect/auth/UserProfileViewModel.kt:92-100 | every text field of the payload is trimmed |
| ProfileVm.UpdatedProfileReadsBack | app/src/main/java/com/example/campusconnect/auth/UserProfileViewModel.kt:92-104 | a merged profile reads back with the new trimmed fields |
| ProfileVm.UpdateProfile | app/src/main/java/com/example/campusconnect/auth/UserProfileViewModel.kt:70-104 | the login check first, then a blank name; otherwise saving and one merge write |
| ProfileVm.OnSaved | app/src/main/java/com/example/campusconnect/auth/UserProfileViewModel.kt:105-111 | saving ends after success or failure; failure shows its message |
| ProfileVm.ClearError | app/src/main/java/com/example/campusconnect/auth/UserProfileViewModel.kt:114-116 | only the error is cleared |
| AiChatVm.MessageOf | app/src/main/java/com/example/campusconnect/ai/AiChatViewModel.kt:63-70 | role and content are read as stored; a missing role is the user's and missing content is "" |
| AiChatVm.ListenChat | app/src/main/java/com/example/campusconnect/ai/AiChatViewModel.kt:48-58 | nothing without a user; otherwise one-shot |
| AiChatVm.OnChat | app/src/main/java/com/example/campusconnect/ai/AiChatViewModel.kt:62-72 | a snapshot replaces the messages |
| AiChatVm.MessagePayload | app/src/main/java/com/example/campusconnect/ai/AiChatViewModel.kt:89-93 | the stored role, content and time |
| AiChatVm.MessageReadsBack | app/src/main/java/com/example/campusconnect/ai/AiChatViewModel.kt:89-93 | a stored message reads back with its role and content |
| AiChatVm.SendMessage | app/src/main/java/com/example/campusconnect/ai/AiChatViewModel.kt:76-93 | login first, then blank text is ignored; otherwise loading, no error, and the trimmed text stored as the user's |
| AiChatVm.TurnOf | app/src/main/java/com/example/campusconnect/ai/AiChatViewModel.kt:193 | role "user" iff the message is the user's, else "model" |
| AiChatVm.RequestTurns | app/src/main/java/com/example/campusconnect/ai/AiChatViewModel.kt:190-193 | at most the last 8 messages, in their original order |
| AiChatVm.RequestEndsWithNewText | app/src/main/java/com/example/campusconnect/ai/AiChatViewModel.kt:102-110 | the request ends with the new text as a user turn |
| AiChatVm.ReplyText | app/src/main/java/com/example/campusconnect/ai/AiChatViewModel.kt:245-271 | non-2xx gives the unreachable text plus the message or "Please try again."; no candidate or blank text gives the fixed text; an exception the "something went wrong" text; otherwise the trimmed text |
| AiChatVm.ReplyNeverBlank | app/src/main/java/com/example/campusconnect/ai/AiChatViewModel.kt:245-271 | the reply is never blank |
| AiChatVm.OnReply | app/src/main/java/com/example/campusconnect/ai/AiChatViewModel.kt:112-127 | the reply is stored with role "model" |
| AiChatVm.ReplyReadsBack | app/src/main/java/com/example/campusconnect/ai/AiChatViewModel.kt:112-127 | the stored reply reads back as a model message |
| AiChatVm.ClearChat | app/src/main/java/com/example/campusconnect/ai/AiChatViewModel.kt:143-172 | no user shows "Not logged in" and deletes nothing; otherwise loading starts and the whole chat collection is deleted |
| AiChatVm.ClearError | app/src/main/java/com/example/campusconnect/ai/AiChatViewModel.kt:135-137 | only the error is cleared |
| AiChatVm.SetError | app/src/main/java/com/example/campusconnect/ai/AiChatViewModel.kt:139-141 | the error is set |
| AiChatScreen.Truncate | app/src/main/java/com/example/campusconnect/ai/StudentAiChatScreen.kt:302-306 | within max UTF-16 units; the trimmed text when it fits, else a prefix of it followed by "...", exactly max units long unless the next character is a surrogate pair (then max-1) |
| AiChatScreen.Shorten | app/src/main/java/com/example/campusconnect/ai/StudentAiChatScreen.kt:305 | the long branch: a prefix of the text, then "...", exactly max units long unless the next character is a surrogate pair (then max-1) |
| AiChatScreen.ShortenBasicPlane | app/src/main/java/com/example/campusconnect/ai/StudentAiChatScreen.kt:305 | on text without surrogate pairs the long branch is exactly the first max-3 characters followed by "..." |
| AiChatScreen.WithEllipsis | app/src/main/java/com/example/campusconnect/ai/StudentAiChatScreen.kt:305 | appending "..." adds three characters and three units |
| AiChatScreen.TruncateIdempotent | app/src/main/java/com/example/campusconnect/ai/StudentAiChatScreen.kt:302-306 | truncating twice is truncating once |
| AiChatScreen.NameById | app/src/main/java/com/example/campusconnect/ai/StudentAiChatScreen.kt:268 | `associate`: the name of the last club with the id |
| AiChatScreen.ClubLabel | app/src/main/java/com/example/campusconnect/ai/StudentAiChatScreen.kt:283 | the club's name, or "Club <id>" when missing or blank |
| AiChatScreen.UniqueClubLabel | app/src/main/java/com/example/campusconnect/ai/StudentAiChatScreen.kt:268-283 | with one club of an id, its label is its name when not blank |
| AiChatScreen.Section | app/src/main/java/com/example/campusconnect/ai/StudentAiChatScreen.kt:270-285 | the listed lines joined by newlines, or "- None" for none |
| AiChatScreen.CampusContext | app/src/main/java/com/example/campusconnect/ai/StudentAiChatScreen.kt:287-299 | after `trimIndent` the context has no "\r", starts with "Announcements:\n", and is the template body itself when no item contains "\r" |
| AiChatScreen.TrimIndentOfBody | app/src/main/java/com/example/campusconnect/ai/StudentAiChatScreen.kt:287-299 | `trimIndent` of "\n" + body + "\n": line breaks normalized, first and last blank lines dropped |
| AiChatScreen.DropFinalBreak | app/src/main/java/com/example/campusconnect/ai/StudentAiChatScreen.kt:299 | the dropped last line is the final line break, and the leading header survives |
| AiChatScreen.OnlyLeadingItemsMatter | app/src/main/java/com/example/campusconnect/ai/StudentAiChatScreen.kt:270-285 | items past each cap do not change the context |
| AiChatScreen.EmptyCampus | app/src/main/java/com/example/campusconnect/ai/StudentAiChatScreen.kt:272-285 | an empty campus renders every section as "- None" |
| AiChatScreen.OnSendClicked | app/src/main/java/com/example/campusconnect/ai/StudentAiChatScreen.kt:135-146 | blank input or loading does nothing; a blank key reports the error; otherwise the input is cleared and the trimmed text sent |
| AiChatScreen.SentTextIsStored | app/src/main/java/com/example/campusconnect/ai/StudentAiChatScreen.kt:145-146 | the text sent is what the view model stores |
| Dashboard.FirstParse | app/src/main/java/com/example/campusconnect/dashboard/StudentDashboard.kt:489-505 | the index of the first format that parses |
| Dashboard.AdjustYearIfMissing | app/src/main/java/com/example/campusconnect/dashboard/StudentDashboard.kt:510-513 | returns its input in both branches |
| Dashboard.EventDateMillis | app/src/main/java/com/example/campusconnect/dashboard/StudentDashboard.kt:485-508 | a blank or unparsable date falls back to createdAt, else Long.MAX_VALUE |
| Dashboard.JoinedClubs | app/src/main/java/com/example/campusconnect/dashboard/StudentDashboard.kt:96-98 | exactly the clubs in the membership set, newest first with a missing time as 0, clubs of equal time in list order |
| Dashboard.RegisteredEvents | app/src/main/java/com/example/campusconnect/dashboard/StudentDashboard.kt:100-102 | exactly the registered events, by ascending date, events of equal date in list order |
| Dashboard.UpcomingEvents | app/src/main/java/com/example/campusconnect/dashboard/StudentDashboard.kt:104-109 | at most 3 events, each upcoming and from the list, in ascending time |
| Dashboard.UpcomingSkipsOnlyLater | app/src/main/java/com/example/campusconnect/dashboard/StudentDashboard.kt:104-109 | an upcoming event left out is no earlier than every one shown |
| Dashboard.NewestThenNameIsTotalPreorder | app/src/main/java/com/example/campusconnect/dashboard/StudentDashboard.kt:111-115 | newest first, ties by lower-case name, is a total preorder |
| Dashboard.TopClubs | app/src/main/java/com/example/campusconnect/dashboard/StudentDashboard.kt:111-116 | at most 5 clubs, a prefix of the stable sort newest first then by lower-case name in UTF-16 order; tied clubs keep their input order |
| Dashboard.TopClubsKeepTieOrder | app/src/main/java/com/example/campusconnect/dashboard/StudentDashboard.kt:111-116 | any prefix of the sorted clubs lists tied clubs in input order |
| Dashboard.PersonalizedIff | app/src/main/java/com/example/campusconnect/dashboard/StudentDashboard.kt:212 | the personalised branch shows iff a registered event or a joined club exists |
| EventsScreen.FilteredEvents | app/src/main/java/com/example/campusconnect/events/StudentEventsScreen.kt:40-47 | a blank query keeps all events; otherwise exactly the events whose title contains the trimmed query ignoring case, in order |
| EventsScreen.FilteredMembers | app/src/main/java/com/example/campusconnect/events/StudentEventsScreen.kt:41-45 | an event is shown iff it is listed and matches |
| EventsScreen.DisplayedRegistrations | app/src/main/java/com/example/campusconnect/events/StudentEventsScreen.kt:167-168 | the count plus one iff registered, as an Int |
| EventsScreen.ActionFor | app/src/main/java/com/example/campusconnect/events/StudentEventsScreen.kt:174-211 | a registered event offers cancel, any other register |
| EventsScreen.EmptyMessage | app/src/main/java/com/example/campusconnect/events/StudentEventsScreen.kt:126-130 | "No events yet." for a blank raw query, else the not-found text |
| EventsScreen.BlankSearchNeverNotFound | app/src/main/java/com/example/campusconnect/events/StudentEventsScreen.kt:126-130 | a blank query never shows the not-found text |
| Reports.SumOf | app/src/main/java/com/example/campusconnect/dashboard/AdminReportsAnalyticsScreen.kt:60-62 | the Int total of the counts, wrapped to 32 bits |
| Reports.SumOfAppend | app/src/main/java/com/example/campusconnect/dashboard/AdminReportsAnalyticsScreen.kt:60-62 | the total over two lists is the wrapped total of the two totals |
| Reports.MaxByOrNull | app/src/main/java/com/example/campusconnect/dashboard/AdminReportsAnalyticsScreen.kt:63-65 | null iff the list is empty; otherwise the first element with the largest key |
| Reports.ComputeFigures | app/src/main/java/com/example/campusconnect/dashboard/AdminReportsAnalyticsScreen.kt:60-65 | the three wrapped totals and three top-by selections, each the first element with the largest count, none for an empty list |
| Reports.SpinnerOrEmptyText | app/src/main/java/com/example/campusconnect/dashboard/AdminReportsAnalyticsScreen.kt:180-198 | with no analytics exactly one of the spinner and the empty text shows; with some, neither |
| Reports.HighlightLine | app/src/main/java/com/example/campusconnect/dashboard/AdminReportsAnalyticsScreen.kt:164-170 | the top item's name and count, or "-" and 0 |
| Reports.FormatTimestamp | app/src/main/java/com/example/campusconnect/dashboard/AdminReportsAnalyticsScreen.kt:352-355 | a missing instant formats as "No data" |
| Reports.ClubTitle | app/src/main/java/com/example/campusconnect/dashboard/AdminReportsAnalyticsScreen.kt:303 | a blank club name shows as "Unnamed Club" |
| Reports.EventTitle | app/src/main/java/com/example/campusconnect/dashboard/AdminReportsAnalyticsScreen.kt:228 | a blank event title shows as "Untitled Event" |
| Navigation.HomeFor | app/src/main/java/com/example/campusconnect/MainActivity.kt:70-72 | "admin" leads to the admin dashboard, any other role to the student one |
| Navigation.Initial | app/src/main/java/com/example/campusconnect/MainActivity.kt:53-55 | the app starts on "login" with no club selected |
| Navigation.Step | app/src/main/java/com/example/campusconnect/MainActivity.kt:67-179 | one callback switches the screen; only logout signs out; only opening club announcements changes the selection |
| Navigation.AuthenticatedGoesHome | app/src/main/java/com/example/campusconnect/MainActivity.kt:70-80 | login or registration success goes to "admin" iff the role is "admin" |
| Navigation.LogoutSignsOut | app/src/main/java/com/example/campusconnect/MainActivity.kt:89-105 | logout from either dashboard signs out and shows "login" |
| Navigation.BackReturns | app/src/main/java/com/example/campusconnect/MainActivity.kt:108-177 | back returns each sub-screen to its dashboard and the club announcements to their club list |
| Navigation.OpenClubRecordsSelection | app/src/main/java/com/example/campusconnect/MainActivity.kt:136-150 | opening a club's announcements records its id and name |
| Navigation.ClubAnnouncementsAccess | app/src/main/java/com/example/campusconnect/MainActivity.kt:162-178 | the admin copy may post and is a member; the student copy may not post and is a member iff the club is one of theirs |
| Navigation.AreaNeedsAuthentication | app/src/main/java/com/example/campusconnect/MainActivity.kt:67-179 | the student or admin area is only entered by a successful login or registration into it, with no logout since |
| Navigation.AdminNeedsAdminRole | app/src/main/java/com/example/campusconnect/MainActivity.kt:70-80 | from the start, an admin screen is reached only through a success with role "admin" and no logout since |
| ClubAnnouncementsScreen.Enter | app/src/main/java/com/example/campusconnect/clubs/ClubAnnouncementsScreen.kt:42-46 | the feed is subscribed only when the user may post or is a member |
| ClubAnnouncementsScreen.TimeLabel | app/src/main/java/com/example/campusconnect/clubs/ClubAnnouncementsScreen.kt:215-218 | no label for a missing time |
| ClubAnnouncementsScreen.Render | app/src/main/java/com/example/campusconnect/clubs/ClubAnnouncementsScreen.kt:115-209 | with neither flag only the join prompt; the form iff the user may post; the empty text iff no announcements and not loading |
| ClubAnnouncementsScreen.AfterPost | app/src/main/java/com/example/campusconnect/clubs/ClubAnnouncementsScreen.kt:150-153 | a successful post clears title and message |
| ClubAnnouncementsScreen.RepostAfterSuccessRejected | app/src/main/java/com/example/campusconnect/clubs/ClubAnnouncementsScreen.kt:150-153 | after a successful post the cleared form writes nothing |
| ClubAnnouncementsScreen.NonMemberSeesNothing | app/src/main/java/com/example/campusconnect/clubs/ClubAnnouncementsScreen.kt:42-121 | a student outside the club subscribes to nothing and sees only the prompt |
| ClubAnnouncementsScreen.AdminSeesForm | app/src/main/java/com/example/campusconnect/clubs/ClubAnnouncementsScreen.kt:123 | the admin copy shows the form |
| ProfileScreen.PathsDiffer | app/src/main/java/com/example/campusconnect/auth/StudentProfileScreen.kt:261-262 | the primary and the fallback upload paths differ |
| ProfileScreen.Sync | app/src/main/java/com/example/campusconnect/auth/StudentProfileScreen.kt:86-92 | the fields follow the stored profile |
| ProfileScreen.Save | app/src/main/java/com/example/campusconnect/auth/StudentProfileScreen.kt:238-320 | no picked image saves with the current URL and uploads nothing; no uid is an error; otherwise the first upload goes to the primary path |
| ProfileScreen.OnUpload | app/src/main/java/com/example/campusconnect/auth/StudentProfileScreen.kt:289-318 | a URL is adopted and saved; NOT_AUTHORIZED on the first attempt retries once at the fallback path; any other failure saves with the old URL and the message |
| ProfileScreen.SaveWithImage | app/src/main/java/com/example/campusconnect/auth/StudentProfileScreen.kt:264-275 | the picked image is consumed and its URL adopted and saved |
| ProfileScreen.SaveWithoutImage | app/src/main/java/com/example/campusconnect/auth/StudentProfileScreen.kt:277-287 | the old URL is saved and the message shown |
| ProfileScreen.SaveButtonText | app/src/main/java/com/example/campusconnect/auth/StudentProfileScreen.kt:325-329 | a spinner while uploading, then "Saving..." while saving |
| ProfileScreen.RetriesBounded | app/src/main/java/com/example/campusconnect/auth/StudentProfileScreen.kt:298-316 | whatever Storage reports, at most one retry starts |
| ProfileScreen.AtMostTwoUploads | app/src/main/java/com/example/campusconnect/auth/StudentProfileScreen.kt:289-320 | one click starts at most two uploads |
| ImageForm.Edit | app/src/main/java/com/example/campusconnect/clubs/AdminClubsScreen.kt:315-321 | edit copies the item, clears the picked image and sets the edited id |
| ImageForm.CancelEdit | app/src/main/java/com/example/campusconnect/clubs/AdminClubsScreen.kt:253-258 | every field and the edited id are cleared |
| ImageForm.StoragePath | app/src/main/java/com/example/campusconnect/clubs/AdminClubsScreen.kt:213-217 | new items at "<folder>/<ms>_<segment or name>.jpg", edited ones at "<folder>/<id>/<name>_<ms>.jpg" |
| ImageForm.PathUnderFolder | app/src/main/java/com/example/campusconnect/clubs/AdminClubsScreen.kt:213-217 | every image lands under its kind's folder |
| ImageForm.Submit | app/src/main/java/com/example/campusconnect/clubs/AdminClubsScreen.kt:183-235 | no picked image saves at once with "" (new) or the current URL (edit); otherwise an upload starts for the edited id |
| ImageForm.OnUpload | app/src/main/java/com/example/campusconnect/clubs/AdminClubsScreen.kt:220-234 | success saves with the URL for the clicked target; failure shows the message and saves nothing |
| ImageForm.OnSaved | app/src/main/java/com/example/campusconnect/clubs/AdminClubsScreen.kt:195-206 | success clears the form; an update also clears the edited id |
| ImageForm.SubmitLabel | app/src/main/java/com/example/campusconnect/clubs/AdminClubsScreen.kt:237-248 | uploading first, then the view model's work, then idle; idle iff enabled |
| ImageForm.UploadKeepsClickTarget | app/src/main/java/com/example/campusconnect/clubs/AdminClubsScreen.kt:185-224 | the upload saves for the item edited at the click, whatever was edited since |
| ImageForm.UpdateSuccessBackToCreate | app/src/main/java/com/example/campusconnect/clubs/AdminClubsScreen.kt:201-204 | after a successful update the next submit creates |
| AdminClubsScreen.EditClub | app/src/main/java/com/example/campusconnect/clubs/AdminClubsScreen.kt:315-321 | edit copies the club's name, description and image URL |
| AdminClubsScreen.Perform | app/src/main/java/com/example/campusconnect/clubs/AdminClubsScreen.kt:195-206 | a save with no edited id creates, with one updates it, writing the chosen URL |
| AdminClubsScreen.SubmitWithoutImage | app/src/main/java/com/example/campusconnect/clubs/AdminClubsScreen.kt:208-210 | without a picked image a new club gets "" and an edited one keeps its URL |
| AdminClubsScreen.UploadFailureSavesNothing | app/src/main/java/com/example/campusconnect/clubs/AdminClubsScreen.kt:226-234 | a failed upload writes nothing |
| AdminClubsScreen.ToggleExpanded | app/src/main/java/com/example/campusconnect/clubs/AdminClubsScreen.kt:334-335 | a click on the expanded club collapses it; any other click expands that club |
| AdminClubsScreen.ToggleMembers | app/src/main/java/com/example/campusconnect/clubs/AdminClubsScreen.kt:334-338 | expanding subscribes to the club's members; collapsing subscribes to nothing |
| AdminClubsScreen.SubmitText | app/src/main/java/com/example/campusconnect/clubs/AdminClubsScreen.kt:240-247 | "Uploading..." first, then "Updating..."/"Publishing...", then "Update Club"/"Publish Club" |
| AdminEventsScreen.EditEvent | app/src/main/java/com/example/campusconnect/events/AdminEventsScreen.kt:317-323 | edit copies the event's texts and image URL |
| AdminEventsScreen.Perform | app/src/main/java/com/example/campusconnect/events/AdminEventsScreen.kt:188-199 | a save with no edited id creates, with one updates it |
| AdminEventsScreen.SubmitWithoutImage | app/src/main/java/com/example/campusconnect/events/AdminEventsScreen.kt:201-203 | without a picked image a new event gets "" and an edited one keeps its URL |
| AdminEventsScreen.SubmitText | app/src/main/java/com/example/campusconnect/events/AdminEventsScreen.kt:233-242 | uploading, then loading, then idle labels |
| AdminPostAnnouncementScreen.Edit | app/src/main/java/com/example/campusconnect/announcements/AdminPostAnnouncementScreen.kt:207-211 | edit copies title and message and sets the id |
| AdminPostAnnouncementScreen.CancelEdit | app/src/main/java/com/example/campusconnect/announcements/AdminPostAnnouncementScreen.kt:162-166 | title, message and the id are cleared |
| AdminPostAnnouncementScreen.Submit | app/src/main/java/com/example/campusconnect/announcements/AdminPostAnnouncementScreen.kt:131-145 | no edited id posts, one updates that id |
| AdminPostAnnouncementScreen.OnDone | app/src/main/java/com/example/campusconnect/announcements/AdminPostAnnouncementScreen.kt:133-143 | post success clears the fields and goes back; update success clears the fields and the id |
| AdminPostAnnouncementScreen.PostSuccessReturnsToDashboard | app/src/main/java/com/example/campusconnect/announcements/AdminPostAnnouncementScreen.kt:136 | going back after a post lands on the admin dashboard |
| AdminPostAnnouncementScreen.SubmitText | app/src/main/java/com/example/campusconnect/announcements/AdminPostAnnouncementScreen.kt:146-157 | the label follows loading and the edit mode |
| ProfileVm.OnProfile | app/src/main/java/com/example/campusconnect/auth/UserProfileViewModel.kt:56-66 | a profile snapshot sets the mapped profile, ends loading and clears the error |
| ProfileVm.SaveSucceedsClean | app/src/main/java/com/example/campusconnect/auth/UserProfileViewModel.kt:90-111 | a valid save that succeeds ends with saving off and no error |
| AuthVm.OnSignInFailed | app/src/main/java/com/example/campusconnect/auth/AuthViewModel.kt:121-128 | a failed sign-in shows the mapped message |
| AuthVm.OnProfileSaveFailed | app/src/main/java/com/example/campusconnect/auth/AuthViewModel.kt:77-83 | a failed user-document write keeps success and the role and shows "Profile save failed: " with the message or "unknown error" |
| AuthVm.OnRoleFetchFailed | app/src/main/java/com/example/campusconnect/auth/AuthViewModel.kt:158-160 | a failed role fetch shows its message or the default |
| AuthVm.OnResetDone | app/src/main/java/com/example/campusconnect/auth/AuthViewModel.kt:143-149 | the reset outcome is reported through the error field, sent or failed |
| AiChatVm.OnChatFailed | app/src/main/java/com/example/campusconnect/ai/AiChatViewModel.kt:58-61 | a failing chat listener sets only the error |
| AiChatVm.OnUserMessageStored | app/src/main/java/com/example/campusconnect/ai/AiChatViewModel.kt:98-110 | once the user's message is stored the model is asked with the recent turns plus the new text |
| AiChatVm.OnWriteDone | app/src/main/java/com/example/campusconnect/ai/AiChatViewModel.kt:119-132 | the reply write ends loading; success keeps the error, failure shows its message; nothing else changes |
| AiChatScreen.ApplyMissingKey | app/src/main/java/com/example/campusconnect/ai/StudentAiChatScreen.kt:139-143 | a missing key sets the error and keeps the messages |
| EventVm.RegisterThenCancel | app/src/main/java/com/example/campusconnect/events/EventViewModel.kt:214-270 | registering and then cancelling successfully restores the registered set |
| ImageForm.CancelForgetsEdit | app/src/main/java/com/example/campusconnect/clubs/AdminClubsScreen.kt:251-263 | cancelling after an edit is the same as cancelling without it |
| AdminEventsScreen.UploadPaths | app/src/main/java/com/example/campusconnect/events/AdminEventsScreen.kt:206-210 | event images are uploaded under "events/" with the poster name |
| AdminPostAnnouncementScreen.UpdateSuccessBackToPost | app/src/main/java/com/example/campusconnect/announcements/AdminPostAnnouncementScreen.kt:138-144 | after a successful update the next submit posts |
| ClubAnnouncementsScreen.Cards | app/src/main/java/com/example/campusconnect/clubs/ClubAnnouncementsScreen.kt:183-207 | one card per announcement, in order |

## Left out

- Firebase itself (Firestore, Auth, Storage) is left out: its calls are effects and its callbacks are functions, so ordering and concurrency between callbacks are left to the caller.
- The HTTP request to the language model and its JSON encoding are left out; `AiChatVm.ReplyText` takes the response already decoded into status, message and candidate text.
- `SimpleDateFormat` parsing and `Timestamp` formatting are parameters (`parse`, `format`), because the platform's date library is not part of this model.
- Whitespace, `trim` and `lowercase` cover ASCII only; Kotlin's Unicode character classes are not modelled.
- The report's percentage bars use floating point (AdminReportsAnalyticsScreen.kt lines 285-295) and are not modelled.
- The club analytics figures are inputs: the queries that compute them are not part of this model.
- Composable layout, colours, images and Coil loading are not modelled; only the values the screens compute and the callbacks' decisions are.
- `ClubVm.ListenMembers`: the listener of the previously followed club is not removed by the source either, so the model emits no `Unlisten` for it.
- `ClubVm.JoinWrites`: the two writes of a join (and the two deletes of a leave) are sequenced by the source through callbacks; the model states which writes happen, not their interleaving with other callbacks.
- `AiChatScreen.Truncate`: requires `max >= 3`, because `take(max - 3)` throws for smaller values; every call site passes a larger constant.
- `AiChatScreen.Truncate`: when unit `max - 3` would cut a surrogate pair in half, Kotlin keeps the lone high surrogate, which a Dafny string cannot hold; the model keeps one unit less (`Text.TakeUnits`).
- `Records.GetString`: Firestore's `getString` throws when the field holds another type; the model reads such a field as missing; every field the app writes has the type it later reads back.
- `Records.GetLong`: Firestore's `getLong` throws on a non-number and truncates a stored double; `Records.Value` has no double and the model reads a non-number as missing.
- `Records.GetTimestamp`: Firestore's `getTimestamp` throws when the field holds another type; the model reads such a field as missing.
- `ImageForm.OnUpload`: an upload callback that arrives when no upload is in flight is a no-op; the Compose closure it would belong to no longer exists.
- `Navigation.Step`: `AdminDashboard` takes no `onOpenReports` parameter, but `AppRoot` passes one (MainActivity.kt line 101); the model keeps the route and its transition.
- `Records.Event`: the model carries the `registrationCount` field that the event mapping reads, although `Event.kt` has no such field.
- `AiChatVm.ClearChat`: the fetch of the chat documents and the batch delete of each of them are one `DeleteAll` effect.
