/**
 * The "recent announcements of my clubs" fan-in of
 * `ClubViewModel.listenRecentClubAnnouncementsForMyClubs`.
 *
 * The state is the key set of the per-club listener map and the merged feed.
 * Two events drive it: the membership set changed, and a snapshot of one
 * club's announcements arrived. As in the app, leaving a club cancels its
 * listener but leaves the club's entries in the merged feed.
 */
module ClubFeed {
  import opened Wrappers
  import opened Records
  import Lists
  import Sorting

  type Summary = ClubAnnouncementSummary

  /** The default `limitPerClub` of each per-club query. */
  const DEFAULT_LIMIT_PER_CLUB: nat := 5

  /**
   * `sortedByDescending { it.createdAt }`: later instants first. A missing
   * timestamp compares below every present one, so it comes last.
   */
  predicate NewerOrSame(a: Timestamp, b: Timestamp) {
    b.None? || (a.Some? && a.value >= b.value)
  }

  function Order(): (Summary, Summary) -> bool {
    (x: Summary, y: Summary) => NewerOrSame(x.createdAt, y.createdAt)
  }

  lemma OrderIsTotalPreorder()
    ensures Sorting.TotalPreorder(Order())
  {
  }

  function OfClub(c: string): Summary -> bool {
    (e: Summary) => e.clubId == c
  }

  function NotOfClub(c: string): Summary -> bool {
    (e: Summary) => e.clubId != c
  }

  /** How many feed entries belong to club `c`. */
  function CountOf(feed: seq<Summary>, c: string): nat {
    Lists.Count(feed, OfClub(c))
  }

  /** The summary the per-club listener builds from one document of club `c`. */
  function SummaryOf(c: string, d: Doc): (r: Summary)
    ensures r.id == d.id && r.clubId == c
    ensures r.createdAt == GetTimestamp(d, CreatedAt)
    ensures GetString(d, Title).None? ==> r.title == ""
    ensures GetString(d, Title).Some? ==> r.title == GetString(d, Title).value
    ensures GetString(d, Message).None? ==> r.message == ""
    ensures GetString(d, Message).Some? ==> r.message == GetString(d, Message).value
  {
    ClubAnnouncementSummary(
      d.id, c,
      GetString(d, Title).GetOr(""),
      GetString(d, Message).GetOr(""),
      GetTimestamp(d, CreatedAt))
  }

  /** The `incoming` list of one snapshot: every entry is tagged with the listener's club. */
  function Incoming(c: string, docs: seq<Doc>): (r: seq<Summary>)
    ensures |r| == |docs|
    ensures forall i :: 0 <= i < |r| ==> r[i] == SummaryOf(c, docs[i])
    ensures forall i :: 0 <= i < |r| ==> r[i].clubId == c
  {
    Lists.Map(docs, (d: Doc) => SummaryOf(c, d))
  }

  /**
   * The snapshot handler of club `c`: drop the club's old entries, append the
   * incoming ones, and re-sort everything. The result is a permutation of that
   * union, sorted newest first with missing timestamps last.
   */
  function Replace(feed: seq<Summary>, c: string, docs: seq<Doc>): (r: seq<Summary>)
    ensures multiset(r) == multiset(Lists.Filter(feed, NotOfClub(c))) + multiset(Incoming(c, docs))
    ensures Sorting.SortedBy(r, Order())
    ensures forall x :: Lists.Filter(r, Sorting.Ties(Order(), x))
                     == Lists.Filter(Lists.Filter(feed, NotOfClub(c)) + Incoming(c, docs), Sorting.Ties(Order(), x))
  {
    var merged := Lists.Filter(feed, NotOfClub(c)) + Incoming(c, docs);
    OrderIsTotalPreorder();
    Sorting.SortByStableAll(merged, Order());
    Sorting.SortBySorted(merged, Order());
    Sorting.SortBy(merged, Order())
  }

  /**
   * An entry is in the new feed iff it is an old entry of another club or one
   * of the incoming entries: no old entry of `c` survives unless it arrives again.
   */
  lemma ReplaceMembers(feed: seq<Summary>, c: string, docs: seq<Doc>, e: Summary)
    ensures e in Replace(feed, c, docs) <==> (e in feed && e.clubId != c) || e in Incoming(c, docs)
  {
    var kept := Lists.Filter(feed, NotOfClub(c));
    var r := Replace(feed, c, docs);
    assert e in r <==> e in multiset(r);
    assert e in kept <==> e in multiset(kept);
    assert e in Incoming(c, docs) <==> e in multiset(Incoming(c, docs));
    if e in feed && e.clubId != c {
      var i :| 0 <= i < |feed| && feed[i] == e;
      assert NotOfClub(c)(feed[i]);
    }
    if e in kept {
      var i :| 0 <= i < |kept| && kept[i] == e;
      assert NotOfClub(c)(kept[i]);
    }
  }

  /**
   * Per-club counts after a snapshot of `c`: club `c` has exactly the incoming
   * entries and every other club keeps its count.
   */
  lemma {:induction false} ReplaceCounts(feed: seq<Summary>, c: string, docs: seq<Doc>, d: string)
    ensures CountOf(Replace(feed, c, docs), d) == if d == c then |docs| else CountOf(feed, d)
  {
    var kept := Lists.Filter(feed, NotOfClub(c));
    var inc := Incoming(c, docs);
    assert Replace(feed, c, docs) == Sorting.SortBy(kept + inc, Order());
    Sorting.CountSortBy(kept + inc, Order(), OfClub(d));
    Lists.CountAppend(kept, inc, OfClub(d));
    if d == c {
      Lists.CountFilterDropped(feed, NotOfClub(c), OfClub(d));
      Lists.CountAll(inc, OfClub(d));
    } else {
      Lists.CountFilterKept(feed, NotOfClub(c), OfClub(d));
      Lists.CountNone(inc, OfClub(d));
    }
  }

  /** The listener-map keys and the merged feed. */
  datatype FeedState = FeedState(listeners: set<string>, feed: seq<Summary>)

  datatype FeedEvent =
    | MembershipChanged(clubIds: set<string>)
    | ClubSnapshot(clubId: string, docs: seq<Doc>)

  /**
   * The key set after a membership change: the keys missing from the new set
   * are removed, then every new club without a key gets one.
   */
  function Reconcile(keys: set<string>, clubIds: set<string>): (r: set<string>)
    ensures r == clubIds
  {
    var kept := keys - (keys - clubIds);
    kept + (clubIds - kept)
  }

  /**
   * The membership handler as the app runs it, one club at a time, returning
   * the listeners it cancels and the ones it opens. No club that already has a
   * listener gets a second one, and no club is added or removed twice.
   */
  method ApplyMembership(keys: set<string>, clubIds: set<string>)
    returns (newKeys: set<string>, removed: seq<string>, added: seq<string>)
    ensures newKeys == Reconcile(keys, clubIds)
    ensures forall c :: c in removed <==> c in keys && c !in clubIds
    ensures forall c :: c in added <==> c in clubIds && c !in keys
    ensures forall i, j :: 0 <= i < j < |removed| ==> removed[i] != removed[j]
    ensures forall i, j :: 0 <= i < j < |added| ==> added[i] != added[j]
  {
    newKeys := keys;
    removed := [];
    var toRemove := keys - clubIds;
    while toRemove != {}
      invariant toRemove <= keys - clubIds
      invariant newKeys == keys - ((keys - clubIds) - toRemove)
      invariant forall c :: c in removed <==> c in (keys - clubIds) - toRemove
      invariant forall i, j :: 0 <= i < j < |removed| ==> removed[i] != removed[j]
      decreases toRemove
    {
      var c :| c in toRemove;
      assert c !in removed;
      newKeys := newKeys - {c};
      removed := removed + [c];
      toRemove := toRemove - {c};
    }
    added := [];
    var pending := clubIds;
    while pending != {}
      invariant pending <= clubIds
      invariant newKeys == (keys * clubIds) + (clubIds - pending)
      invariant forall c :: c in added <==> c in (clubIds - keys) - pending
      invariant forall i, j :: 0 <= i < j < |added| ==> added[i] != added[j]
      decreases pending
    {
      var c :| c in pending;
      if c !in newKeys {
        assert c !in added;
        newKeys := newKeys + {c};
        added := added + [c];
      }
      pending := pending - {c};
    }
  }

  /**
   * One event. A membership change only moves listener keys and never touches
   * the feed; a snapshot replaces its club's slice, and a snapshot of a club
   * whose listener was removed no longer arrives.
   */
  function Step(s: FeedState, e: FeedEvent): (r: FeedState)
    ensures e.MembershipChanged? ==> r.listeners == e.clubIds && r.feed == s.feed
    ensures e.ClubSnapshot? && e.clubId !in s.listeners ==> r == s
    ensures e.ClubSnapshot? && e.clubId in s.listeners ==>
      r.listeners == s.listeners && r.feed == Replace(s.feed, e.clubId, e.docs)
  {
    match e
    case MembershipChanged(ids) => s.(listeners := Reconcile(s.listeners, ids))
    case ClubSnapshot(c, docs) =>
      if c in s.listeners then s.(feed := Replace(s.feed, c, docs)) else s
  }

  /** A sequential trace of events. */
  function Run(s: FeedState, evs: seq<FeedEvent>): FeedState
    decreases |evs|
  {
    if |evs| == 0 then s else Run(Step(s, evs[0]), evs[1..])
  }

  /** The feed stays sorted newest first across any trace. */
  lemma {:induction false} RunKeepsSorted(s: FeedState, evs: seq<FeedEvent>)
    requires Sorting.SortedBy(s.feed, Order())
    ensures Sorting.SortedBy(Run(s, evs).feed, Order())
    decreases |evs|
  {
    if |evs| > 0 {
      RunKeepsSorted(Step(s, evs[0]), evs[1..]);
    }
  }

  ghost predicate WithinLimit(feed: seq<Summary>, limit: nat) {
    forall c :: CountOf(feed, c) <= limit
  }

  predicate SnapshotsWithin(evs: seq<FeedEvent>, limit: nat) {
    forall i :: 0 <= i < |evs| && evs[i].ClubSnapshot? ==> |evs[i].docs| <= limit
  }

  /**
   * Every per-club query is capped, so each club contributes at most `limit`
   * entries; the merged feed itself has no cap.
   */
  lemma {:induction false} RunWithinLimit(s: FeedState, evs: seq<FeedEvent>, limit: nat)
    requires WithinLimit(s.feed, limit)
    requires SnapshotsWithin(evs, limit)
    ensures WithinLimit(Run(s, evs).feed, limit)
    decreases |evs|
  {
    if |evs| > 0 {
      var t := Step(s, evs[0]);
      forall d ensures CountOf(t.feed, d) <= limit {
        if evs[0].ClubSnapshot? && evs[0].clubId in s.listeners {
          ReplaceCounts(s.feed, evs[0].clubId, evs[0].docs, d);
        }
      }
      assert SnapshotsWithin(evs[1..], limit) by {
        forall i | 0 <= i < |evs[1..]| && evs[1..][i].ClubSnapshot? ensures |evs[1..][i].docs| <= limit {
          assert evs[1..][i] == evs[i + 1];
        }
      }
      RunWithinLimit(t, evs[1..], limit);
    }
  }

  /** Sorting the three example entries, oldest of A last. */
  lemma SortExample(sa1: Summary, sa2: Summary, sb3: Summary)
    requires sa1.createdAt == Some(1) && sa2.createdAt == Some(2) && sb3.createdAt == Some(3)
    ensures Sorting.SortBy([sa2, sa1], Order()) == [sa2, sa1]
    ensures Sorting.SortBy([sa2, sa1, sb3], Order()) == [sb3, sa2, sa1]
  {
    assert [sa2, sa1][1..] == [sa1];
    assert Sorting.SortBy([sa1], Order()) == [sa1];
    assert Sorting.Insert(sa2, [sa1], Order()) == [sa2, sa1];
    assert [sa1, sb3][1..] == [sb3];
    assert Sorting.SortBy([sb3], Order()) == [sb3];
    assert Sorting.Insert(sa1, [sb3], Order()) == [sb3, sa1];
    assert [sa2, sa1, sb3][1..] == [sa1, sb3];
    assert [sb3, sa1][1..] == [sa1];
    assert Sorting.Insert(sa2, [sb3, sa1], Order()) == [sb3, sa2, sa1];
  }

  /** A snapshot of a followed club re-sorts the other clubs' entries with the incoming ones. */
  lemma SnapshotFeed(s: FeedState, c: string, docs: seq<Doc>, kept: seq<Summary>, inc: seq<Summary>, sorted: seq<Summary>)
    requires c in s.listeners
    requires Lists.Filter(s.feed, NotOfClub(c)) == kept && Incoming(c, docs) == inc
    requires Sorting.SortBy(kept + inc, Order()) == sorted
    ensures Step(s, ClubSnapshot(c, docs)).feed == sorted
  {
  }

  lemma IncomingOne(c: string, d: Doc)
    ensures Incoming(c, [d]) == [SummaryOf(c, d)]
  {
  }

  lemma IncomingTwo(c: string, d1: Doc, d2: Doc)
    ensures Incoming(c, [d1, d2]) == [SummaryOf(c, d1), SummaryOf(c, d2)]
  {
  }

  lemma SnapshotAExample(a1: Doc, a2: Doc)
    requires GetTimestamp(a1, CreatedAt) == Some(1)
    requires GetTimestamp(a2, CreatedAt) == Some(2)
    ensures Step(FeedState({"A", "B"}, []), ClubSnapshot("A", [a2, a1])).feed
         == [SummaryOf("A", a2), SummaryOf("A", a1)]
  {
    var sa1, sa2 := SummaryOf("A", a1), SummaryOf("A", a2);
    IncomingTwo("A", a2, a1);
    assert [] + [sa2, sa1] == [sa2, sa1];
    SortExample(sa1, sa2, sa2.(clubId := "B", createdAt := Some(3)));
    SnapshotFeed(FeedState({"A", "B"}, []), "A", [a2, a1], [], [sa2, sa1], [sa2, sa1]);
  }

  lemma KeepOthers(x: Summary, y: Summary, c: string)
    requires x.clubId != c && y.clubId != c
    ensures Lists.Filter([x, y], NotOfClub(c)) == [x, y]
  {
    assert [x, y][1..] == [y];
    assert Lists.Filter([y], NotOfClub(c)) == [y];
  }

  lemma SnapshotBExample(sa1: Summary, sa2: Summary, b3: Doc)
    requires sa1.createdAt == Some(1) && sa2.createdAt == Some(2)
    requires sa1.clubId == "A" && sa2.clubId == "A"
    requires GetTimestamp(b3, CreatedAt) == Some(3)
    ensures Step(FeedState({"A", "B"}, [sa2, sa1]), ClubSnapshot("B", [b3])).feed
         == [SummaryOf("B", b3), sa2, sa1]
  {
    var sb3 := SummaryOf("B", b3);
    KeepOthers(sa2, sa1, "B");
    IncomingOne("B", b3);
    assert [sa2, sa1] + [sb3] == [sa2, sa1, sb3];
    SortExample(sa1, sa2, sb3);
    SnapshotFeed(FeedState({"A", "B"}, [sa2, sa1]), "B", [b3], [sa2, sa1], [sb3], [sb3, sa2, sa1]);
  }

  /** Three events in a row. */
  lemma RunThree(s: FeedState, e0: FeedEvent, e1: FeedEvent, e2: FeedEvent)
    ensures Run(s, [e0, e1, e2]) == Step(Step(Step(s, e0), e1), e2)
  {
    var evs := [e0, e1, e2];
    assert evs[1..] == [e1, e2];
    assert [e1, e2][1..] == [e2];
    assert [e2][1..] == [];
    assert Run(s, evs) == Run(Step(s, e0), [e1, e2]);
    assert Run(Step(s, e0), [e1, e2]) == Run(Step(Step(s, e0), e1), [e2]);
    assert Run(Step(Step(s, e0), e1), [e2]) == Run(Step(Step(Step(s, e0), e1), e2), []);
  }

  /**
   * The app's behaviour on leaving a club: join A (announcements at 1 and 2)
   * and B (one at 3), giving [B:3, A:2, A:1]; after leaving A its listener is
   * gone but both of its entries are still in the feed.
   */
  lemma LeaveKeepsEntries(a1: Doc, a2: Doc, b3: Doc)
    requires GetTimestamp(a1, CreatedAt) == Some(1)
    requires GetTimestamp(a2, CreatedAt) == Some(2)
    requires GetTimestamp(b3, CreatedAt) == Some(3)
    ensures
      var joined := Run(FeedState({}, []),
        [MembershipChanged({"A", "B"}), ClubSnapshot("A", [a2, a1]), ClubSnapshot("B", [b3])]);
      var left := Step(joined, MembershipChanged({"B"}));
      joined.feed == [SummaryOf("B", b3), SummaryOf("A", a2), SummaryOf("A", a1)]
      && left.listeners == {"B"}
      && left.feed == joined.feed
  {
    var e0, e1, e2 := MembershipChanged({"A", "B"}), ClubSnapshot("A", [a2, a1]), ClubSnapshot("B", [b3]);
    RunThree(FeedState({}, []), e0, e1, e2);
    var s1 := Step(FeedState({}, []), e0);
    assert s1 == FeedState({"A", "B"}, []);
    SnapshotAExample(a1, a2);
    var s2 := Step(s1, e1);
    assert s2 == FeedState({"A", "B"}, [SummaryOf("A", a2), SummaryOf("A", a1)]);
    SnapshotBExample(SummaryOf("A", a1), SummaryOf("A", a2), b3);
  }
}
