/**
 * What the pagination loop of the parser guarantees, stated over the
 * observed pages: where a found position comes from, which page ends the
 * search and how, the order pages are visited in, and the safe-search cap.
 */
module SearchProperties {
  import opened Wrappers
  import opened Parser

  /**
   * The page at index k is visited: every earlier page showed cards without
   * the article, and the safe-search cap did not stop the loop before it.
   */
  predicate Reached(pages: seq<PageObservation>, article: string, limits: Limits, k: nat) {
    && k < |pages|
    && (forall j :: 0 <= j < k ==> Unmatched(pages[j], article))
    && (k == 0 || !limits.safeSearch || k < limits.maxSafeSearch)
  }

  /** The page at index k is visited and the loop ends there. */
  predicate StopsAt(pages: seq<PageObservation>, article: string, limits: Limits, k: nat) {
    && Reached(pages, article, limits, k)
    && (!Unmatched(pages[k], article) || (limits.safeSearch && k + 2 > limits.maxSafeSearch))
  }

  /** The session events of visiting pages 1..k, each showing cards. */
  function VisitedEvents(searchQuery: string, k: nat): seq<SessionEvent> {
    if k == 0 then [] else VisitedEvents(searchQuery, k - 1) + [Goto(searchQuery, k), Extract(k)]
  }

  /** The page numbers opened, in order. */
  function PagesVisited(events: seq<SessionEvent>): seq<nat> {
    if events == [] then []
    else (if events[0].Goto? then [events[0].pageNum] else []) + PagesVisited(events[1..])
  }

  function Max(a: int, b: int): int {
    if a < b then b else a
  }

  lemma {:induction false} PagesVisitedAppend(a: seq<SessionEvent>, b: seq<SessionEvent>)
    ensures PagesVisited(a + b) == PagesVisited(a) + PagesVisited(b)
    decreases |a|
  {
    if a == [] {
      assert a + b == b;
    } else {
      var head := if a[0].Goto? then [a[0].pageNum] else [];
      assert (a + b)[0] == a[0] && (a + b)[1..] == a[1..] + b;
      assert PagesVisited(a + b) == head + PagesVisited(a[1..] + b);
      PagesVisitedAppend(a[1..], b);
      assert PagesVisited(a) == head + PagesVisited(a[1..]);
    }
  }

  lemma {:induction false} VisitedEventsPages(searchQuery: string, k: nat)
    ensures PagesVisited(VisitedEvents(searchQuery, k)) == seq(k, i => i + 1)
  {
    if k > 0 {
      VisitedEventsPages(searchQuery, k - 1);
      var visit := [Goto(searchQuery, k), Extract(k)];
      PagesVisitedAppend(VisitedEvents(searchQuery, k - 1), visit);
      assert visit[1..] == [Extract(k)];
      assert PagesVisited([Extract(k)]) == [];
      assert seq(k, i => i + 1) == seq(k - 1, i => i + 1) + [k];
    }
  }

  // ---------------------------------------------------------------------
  // Reaching a page
  // ---------------------------------------------------------------------

  /**
   * Reaching page k leaves exactly the visits of pages 1..k behind and the
   * items of those pages as the running offset.
   */
  lemma ScanReaches(pages: seq<PageObservation>, searchQuery: string, article: string,
                    timestamp: string, limits: Limits, k: nat)
    requires Reached(pages, article, limits, k)
    ensures var here := ScanFrom(pages, searchQuery, article, timestamp, limits, k, ItemsBefore(pages, k));
            && Scan(pages, searchQuery, article, timestamp, limits).run == here.run
            && Scan(pages, searchQuery, article, timestamp, limits).events == VisitedEvents(searchQuery, k) + here.events
  {
    ScanReachesRun(pages, searchQuery, article, timestamp, limits, k);
    ScanReachesEvents(pages, searchQuery, article, timestamp, limits, k);
  }

  lemma {:induction false} ScanReachesRun(pages: seq<PageObservation>, searchQuery: string, article: string,
                                          timestamp: string, limits: Limits, k: nat)
    requires Reached(pages, article, limits, k)
    ensures Scan(pages, searchQuery, article, timestamp, limits).run
            == ScanFrom(pages, searchQuery, article, timestamp, limits, k, ItemsBefore(pages, k)).run
  {
    if k > 0 {
      var whole := Scan(pages, searchQuery, article, timestamp, limits).run;
      var prev := ScanFrom(pages, searchQuery, article, timestamp, limits, k - 1, ItemsBefore(pages, k - 1)).run;
      var here := ScanFrom(pages, searchQuery, article, timestamp, limits, k, ItemsBefore(pages, k)).run;
      assert whole == prev by {
        assert Reached(pages, article, limits, k - 1);
        ScanReachesRun(pages, searchQuery, article, timestamp, limits, k - 1);
      }
      assert prev == here by {
        assert ItemsBefore(pages, k) == ItemsBefore(pages, k - 1) + ItemCount(pages[k - 1]);
        PassOver(pages, searchQuery, article, timestamp, limits, k - 1, ItemsBefore(pages, k - 1));
      }
    }
  }

  lemma {:induction false} ScanReachesEvents(pages: seq<PageObservation>, searchQuery: string, article: string,
                                             timestamp: string, limits: Limits, k: nat)
    requires Reached(pages, article, limits, k)
    ensures Scan(pages, searchQuery, article, timestamp, limits).events
            == VisitedEvents(searchQuery, k)
               + ScanFrom(pages, searchQuery, article, timestamp, limits, k, ItemsBefore(pages, k)).events
  {
    if k > 0 {
      var whole := Scan(pages, searchQuery, article, timestamp, limits).events;
      var prev := ScanFrom(pages, searchQuery, article, timestamp, limits, k - 1, ItemsBefore(pages, k - 1)).events;
      var here := ScanFrom(pages, searchQuery, article, timestamp, limits, k, ItemsBefore(pages, k)).events;
      var visit := [Goto(searchQuery, k), Extract(k)];
      assert whole == VisitedEvents(searchQuery, k - 1) + prev by {
        assert Reached(pages, article, limits, k - 1);
        ScanReachesEvents(pages, searchQuery, article, timestamp, limits, k - 1);
      }
      assert prev == visit + here by {
        assert ItemsBefore(pages, k) == ItemsBefore(pages, k - 1) + ItemCount(pages[k - 1]);
        PassOver(pages, searchQuery, article, timestamp, limits, k - 1, ItemsBefore(pages, k - 1));
      }
      assert VisitedEvents(searchQuery, k - 1) + (visit + here) == VisitedEvents(searchQuery, k) + here;
    }
  }

  /** On the first page with the article, its position is offset by all earlier cards. */
  lemma FoundOnPage(pages: seq<PageObservation>, searchQuery: string, article: string,
                    timestamp: string, limits: Limits, k: nat, p: nat)
    requires Reached(pages, article, limits, k)
    requires pages[k].Cards? && FirstIndexOf(pages[k].ids, article) == Some(p)
    ensures Scan(pages, searchQuery, article, timestamp, limits).run
            == Finished(Returned(Pair(Some(ItemsBefore(pages, k) + p), timestamp)))
    ensures Scan(pages, searchQuery, article, timestamp, limits).events == VisitedEvents(searchQuery, k + 1)
  {
    ScanReaches(pages, searchQuery, article, timestamp, limits, k);
  }

  /** A "nothing found" page ends the search with (None, timestamp); no cards are read and no later page is opened. */
  lemma NoResultsEndsSearch(pages: seq<PageObservation>, searchQuery: string, article: string,
                            timestamp: string, limits: Limits, k: nat)
    requires Reached(pages, article, limits, k) && pages[k].NoResults?
    ensures Scan(pages, searchQuery, article, timestamp, limits).run == Finished(Returned(Pair(None, timestamp)))
    ensures Scan(pages, searchQuery, article, timestamp, limits).events
            == VisitedEvents(searchQuery, k) + [Goto(searchQuery, k + 1)]
  {
    ScanReaches(pages, searchQuery, article, timestamp, limits, k);
  }

  /** A timeout or any other error on a page is indistinguishable from a "nothing found" page. */
  lemma ErrorsLookLikeNoResults(pages: seq<PageObservation>, searchQuery: string, article: string,
                                timestamp: string, limits: Limits, k: nat)
    requires Reached(pages, article, limits, k) && (pages[k].Timeout? || pages[k].Failure?)
    ensures Scan(pages, searchQuery, article, timestamp, limits)
            == Scan(pages[k := NoResults], searchQuery, article, timestamp, limits)
    ensures Scan(pages, searchQuery, article, timestamp, limits).run == Finished(Returned(Pair(None, timestamp)))
  {
    var other := pages[k := NoResults];
    assert Reached(other, article, limits, k);
    ScanReaches(pages, searchQuery, article, timestamp, limits, k);
    ScanReaches(other, searchQuery, article, timestamp, limits, k);
  }

  /** An unmatched page that brings the page number past the cap ends the loop with a bare None. */
  lemma CapBreaks(pages: seq<PageObservation>, searchQuery: string, article: string,
                  timestamp: string, limits: Limits, k: nat)
    requires Reached(pages, article, limits, k) && Unmatched(pages[k], article)
    requires limits.safeSearch && k + 2 > limits.maxSafeSearch
    ensures Scan(pages, searchQuery, article, timestamp, limits).run == Finished(Returned(NoneValue))
    ensures Scan(pages, searchQuery, article, timestamp, limits).events == VisitedEvents(searchQuery, k + 1)
  {
    ScanReaches(pages, searchQuery, article, timestamp, limits, k);
  }

  /**
   * With safe search on and cap N, when the first max(N, 1) pages show cards
   * without the article, exactly those pages are visited and the result is
   * the bare None, not a pair.
   */
  lemma CapReached(pages: seq<PageObservation>, searchQuery: string, article: string,
                   timestamp: string, limits: Limits)
    requires limits.safeSearch
    requires Max(limits.maxSafeSearch, 1) <= |pages|
    requires forall j :: 0 <= j < Max(limits.maxSafeSearch, 1) ==> Unmatched(pages[j], article)
    ensures Scan(pages, searchQuery, article, timestamp, limits).run == Finished(Returned(NoneValue))
    ensures PagesVisited(Scan(pages, searchQuery, article, timestamp, limits).events)
            == seq(Max(limits.maxSafeSearch, 1), i => i + 1)
  {
    var k := Max(limits.maxSafeSearch, 1) - 1;
    assert Reached(pages, article, limits, k);
    CapBreaks(pages, searchQuery, article, timestamp, limits, k);
    VisitedEventsPages(searchQuery, k + 1);
  }

  // ---------------------------------------------------------------------
  // Where each outcome comes from
  // ---------------------------------------------------------------------

  /**
   * From a reached page (or past the last one) the loop either ends at a
   * later page where it stops, or passes over every remaining page.
   */
  lemma {:induction false} ScanFromEnds(pages: seq<PageObservation>, searchQuery: string, article: string,
                                        timestamp: string, limits: Limits, k: nat)
    requires k <= |pages|
    requires forall j :: 0 <= j < k ==> Unmatched(pages[j], article)
    requires k == 0 || !limits.safeSearch || k < limits.maxSafeSearch
    ensures var s := ScanFrom(pages, searchQuery, article, timestamp, limits, k, ItemsBefore(pages, k));
            s.run.Finished? ==>
              exists i: nat :: k <= i && StopsAt(pages, article, limits, i)
                && s.run == ScanFrom(pages, searchQuery, article, timestamp, limits, i, ItemsBefore(pages, i)).run
    ensures var s := ScanFrom(pages, searchQuery, article, timestamp, limits, k, ItemsBefore(pages, k));
            s.run == OutOfPages ==>
              forall j :: 0 <= j < |pages| ==>
                (Unmatched(pages[j], article) && !(limits.safeSearch && j + 2 > limits.maxSafeSearch))
    decreases |pages| - k
  {
    var s := ScanFrom(pages, searchQuery, article, timestamp, limits, k, ItemsBefore(pages, k));
    if k == |pages| {
      assert s.run == OutOfPages;
      if k > 0 {
        assert limits.safeSearch ==> k < limits.maxSafeSearch;
      }
    } else if StopsAt(pages, article, limits, k) {
      assert s.run.Finished?;
    } else {
      assert Unmatched(pages[k], article);
      assert ItemsBefore(pages, k + 1) == ItemsBefore(pages, k) + |pages[k].ids|;
      var rest := ScanFrom(pages, searchQuery, article, timestamp, limits, k + 1, ItemsBefore(pages, k + 1));
      assert s.run == rest.run;
      ScanFromEnds(pages, searchQuery, article, timestamp, limits, k + 1);
      if s.run == OutOfPages {
        assert rest.run == OutOfPages;
      }
    }
  }

  /**
   * A found position p comes from the first page holding the article: p is
   * the number of cards on the earlier pages plus the position on that page,
   * and the timestamp is the one captured before the loop.
   */
  lemma FoundOnlyOnMatchingPage(pages: seq<PageObservation>, searchQuery: string, article: string,
                                timestamp: string, limits: Limits, p: nat, t: string)
    requires Scan(pages, searchQuery, article, timestamp, limits).run == Finished(Returned(Pair(Some(p), t)))
    ensures t == timestamp
    ensures exists k: nat :: Reached(pages, article, limits, k) && pages[k].Cards?
              && FirstIndexOf(pages[k].ids, article).Some?
              && p == ItemsBefore(pages, k) + FirstIndexOf(pages[k].ids, article).value
  {
    var i := StoppingPage(pages, searchQuery, article, timestamp, limits);
    assert pages[i].Cards?;
  }

  /** Every pair the loop returns carries the timestamp captured before it. */
  lemma ReturnedPairCarriesTimestamp(pages: seq<PageObservation>, searchQuery: string, article: string,
                                     timestamp: string, limits: Limits, position: Option<nat>, t: string)
    requires Scan(pages, searchQuery, article, timestamp, limits).run == Finished(Returned(Pair(position, t)))
    ensures t == timestamp
  {
    var i := StoppingPage(pages, searchQuery, article, timestamp, limits);
  }

  /**
   * The bare None comes only from the safe-search cap: safe search is on,
   * the first max(N, 1) pages showed cards without the article, and exactly
   * those pages were opened.
   */
  lemma NoneValueOnlyFromCap(pages: seq<PageObservation>, searchQuery: string, article: string,
                             timestamp: string, limits: Limits)
    requires Scan(pages, searchQuery, article, timestamp, limits).run == Finished(Returned(NoneValue))
    ensures limits.safeSearch
    ensures Max(limits.maxSafeSearch, 1) <= |pages|
    ensures forall j :: 0 <= j < Max(limits.maxSafeSearch, 1) ==> Unmatched(pages[j], article)
    ensures Scan(pages, searchQuery, article, timestamp, limits).events
            == VisitedEvents(searchQuery, Max(limits.maxSafeSearch, 1))
  {
    var i: nat := StoppingPage(pages, searchQuery, article, timestamp, limits);
    var here := ScanFrom(pages, searchQuery, article, timestamp, limits, i, ItemsBefore(pages, i));
    assert here.run == Finished(Returned(NoneValue));
    assert Unmatched(pages[i], article) && limits.safeSearch && i + 2 > limits.maxSafeSearch;
    assert here.events == [Goto(searchQuery, i + 1), Extract(i + 1)];
    assert i + 1 == Max(limits.maxSafeSearch, 1);
    ScanReachesEvents(pages, searchQuery, article, timestamp, limits, i);
  }

  /** The page a finished search stops at. */
  lemma StoppingPage(pages: seq<PageObservation>, searchQuery: string, article: string,
                     timestamp: string, limits: Limits)
    returns (i: nat)
    requires Scan(pages, searchQuery, article, timestamp, limits).run.Finished?
    ensures StopsAt(pages, article, limits, i)
    ensures Scan(pages, searchQuery, article, timestamp, limits).run
            == ScanFrom(pages, searchQuery, article, timestamp, limits, i, ItemsBefore(pages, i)).run
  {
    ScanFromEnds(pages, searchQuery, article, timestamp, limits, 0);
    i :| StopsAt(pages, article, limits, i)
      && Scan(pages, searchQuery, article, timestamp, limits).run
         == ScanFrom(pages, searchQuery, article, timestamp, limits, i, ItemsBefore(pages, i)).run;
  }

  /**
   * When the observed pages run out, every one of them showed cards without
   * the article and none brought the page number past an active cap.
   */
  lemma OutOfPagesOnlyWhenAllUnmatched(pages: seq<PageObservation>, searchQuery: string, article: string,
                                       timestamp: string, limits: Limits)
    requires Scan(pages, searchQuery, article, timestamp, limits).run == OutOfPages
    ensures forall j :: 0 <= j < |pages| ==> Unmatched(pages[j], article)
    ensures limits.safeSearch && |pages| > 0 ==> |pages| < limits.maxSafeSearch
  {
    ScanFromEnds(pages, searchQuery, article, timestamp, limits, 0);
    if limits.safeSearch && |pages| > 0 {
      var last := |pages| - 1;
      assert Unmatched(pages[last], article) && !(limits.safeSearch && last + 2 > limits.maxSafeSearch);
    }
  }

  // ---------------------------------------------------------------------
  // Visit order and the cap on visits
  // ---------------------------------------------------------------------

  lemma {:induction false} ScanFromVisitOrder(pages: seq<PageObservation>, searchQuery: string, article: string,
                                              timestamp: string, limits: Limits, k: nat, offset: nat)
    requires k <= |pages|
    ensures var v := PagesVisited(ScanFrom(pages, searchQuery, article, timestamp, limits, k, offset).events);
            && Consecutive(v, k + 1)
            && (limits.safeSearch ==> |v| <= Max(limits.maxSafeSearch - k, 1))
            && k + |v| <= |pages|
    decreases |pages| - k
  {
    var s := ScanFrom(pages, searchQuery, article, timestamp, limits, k, offset);
    if k < |pages| {
      OneVisitPages(searchQuery, k + 1);
      if pages[k].Cards? && FirstIndexOf(pages[k].ids, article).None?
         && !(limits.safeSearch && k + 2 > limits.maxSafeSearch) {
        var visit := [Goto(searchQuery, k + 1), Extract(k + 1)];
        var rest := ScanFrom(pages, searchQuery, article, timestamp, limits, k + 1, offset + |pages[k].ids|);
        var w := PagesVisited(rest.events);
        assert PagesVisited(s.events) == [k + 1] + w by {
          assert s.events == visit + rest.events;
          PagesVisitedAppend(visit, rest.events);
        }
        assert Consecutive(w, k + 2) && k + 1 + |w| <= |pages|
               && (limits.safeSearch ==> |w| <= Max(limits.maxSafeSearch - k - 1, 1)) by {
          ScanFromVisitOrder(pages, searchQuery, article, timestamp, limits, k + 1, offset + |pages[k].ids|);
        }
      } else {
        assert PagesVisited(s.events) == [k + 1];
      }
    }
  }

  /** The page numbers v are first, first + 1, first + 2, ... */
  predicate Consecutive(v: seq<nat>, first: nat) {
    forall i :: 0 <= i < |v| ==> v[i] == first + i
  }

  lemma OneVisitPages(searchQuery: string, pageNum: nat)
    ensures PagesVisited([Goto(searchQuery, pageNum)]) == [pageNum]
    ensures PagesVisited([Goto(searchQuery, pageNum), Extract(pageNum)]) == [pageNum]
  {
    var visit := [Goto(searchQuery, pageNum), Extract(pageNum)];
    assert visit[1..] == [Extract(pageNum)];
    assert [Extract(pageNum)][1..] == [];
    assert [Goto(searchQuery, pageNum)][1..] == [];
  }

  /**
   * Pages are opened in the order 1, 2, 3, ..., one after another; with safe
   * search on and cap N at most max(N, 1) of them.
   */
  lemma VisitOrderAndCap(pages: seq<PageObservation>, searchQuery: string, article: string,
                         timestamp: string, limits: Limits)
    ensures var v := PagesVisited(Scan(pages, searchQuery, article, timestamp, limits).events);
            && v == seq(|v|, i => i + 1)
            && |v| <= |pages|
            && (limits.safeSearch ==> |v| <= Max(limits.maxSafeSearch, 1))
  {
    ScanFromVisitOrder(pages, searchQuery, article, timestamp, limits, 0, 0);
  }

  /**
   * Every card read in `events` is from a page numbered above `k` that
   * showed cards, and comes right after opening that page.
   */
  predicate ExtractsAfterGoto(events: seq<SessionEvent>, pages: seq<PageObservation>, searchQuery: string, k: nat) {
    forall i :: 0 <= i < |events| && events[i].Extract? ==>
      && k + 1 <= events[i].pageNum <= |pages| && pages[events[i].pageNum - 1].Cards?
      && 0 < i && events[i - 1] == Goto(searchQuery, events[i].pageNum)
  }

  lemma {:induction false} ScanFromExtracts(pages: seq<PageObservation>, searchQuery: string, article: string,
                                            timestamp: string, limits: Limits, k: nat, offset: nat)
    ensures ExtractsAfterGoto(ScanFrom(pages, searchQuery, article, timestamp, limits, k, offset).events,
                              pages, searchQuery, k)
    decreases |pages| - k
  {
    var e := ScanFrom(pages, searchQuery, article, timestamp, limits, k, offset).events;
    if k < |pages| && pages[k].Cards? {
      var visit := [Goto(searchQuery, k + 1), Extract(k + 1)];
      if FirstIndexOf(pages[k].ids, article).None? && !(limits.safeSearch && k + 2 > limits.maxSafeSearch) {
        var rest := ScanFrom(pages, searchQuery, article, timestamp, limits, k + 1, offset + |pages[k].ids|).events;
        ScanFromExtracts(pages, searchQuery, article, timestamp, limits, k + 1, offset + |pages[k].ids|);
        assert ExtractsAfterGoto(rest, pages, searchQuery, k + 1);
        assert e == visit + rest;
        forall i | 0 <= i < |e| && e[i].Extract?
          ensures k + 1 <= e[i].pageNum <= |pages| && pages[e[i].pageNum - 1].Cards?
          ensures 0 < i && e[i - 1] == Goto(searchQuery, e[i].pageNum)
        {
          if i < 2 {
            assert e[0] == Goto(searchQuery, k + 1) && e[1] == Extract(k + 1);
          } else {
            assert e[i] == rest[i - 2] && rest[i - 2].Extract?;
            assert e[i - 1] == rest[i - 3];
          }
        }
      } else {
        assert e == visit;
        assert e[0] == Goto(searchQuery, k + 1) && e[1] == Extract(k + 1);
      }
    }
  }

  /**
   * Cards are read only from a page that showed cards, right after opening
   * it: never from a "nothing found" page or one that raised.
   */
  lemma ExtractOnlyAfterGotoOnCards(pages: seq<PageObservation>, searchQuery: string, article: string,
                                    timestamp: string, limits: Limits)
    ensures ExtractsAfterGoto(Scan(pages, searchQuery, article, timestamp, limits).events, pages, searchQuery, 0)
  {
    ScanFromExtracts(pages, searchQuery, article, timestamp, limits, 0, 0);
  }

  // ---------------------------------------------------------------------
  // A worked case
  // ---------------------------------------------------------------------

  /**
   * Page 1 holds 40 cards without the article, page 2 holds 40 cards with the
   * article as card 7: the position is 47, from the pair that carries the
   * timestamp, whatever the cap (as long as the cap lets page 2 be visited).
   */
  lemma FortySevenAcrossTwoPages(searchQuery: string, timestamp: string, limits: Limits)
    requires !limits.safeSearch || limits.maxSafeSearch >= 2
    ensures var page1 := Cards(seq(40, i => Some("1")));
            var page2 := Cards(seq(40, i => if i == 6 then Some("12345") else Some("2")));
            Scan([page1, page2], searchQuery, "12345", timestamp, limits).run
              == Finished(Returned(Pair(Some(47), timestamp)))
  {
    var page1 := Cards(seq(40, i => Some("1")));
    var page2 := Cards(seq(40, i => if i == 6 then Some("12345") else Some("2")));
    var pages := [page1, page2];
    assert page1.ids[0] != Some("12345");
    assert Unmatched(page1, "12345");
    assert Reached(pages, "12345", limits, 1);
    assert page2.ids[6] == Some("12345");
    assert FirstIndexOf(page2.ids, "12345") == Some(7);
    assert ItemsBefore(pages, 1) == 40;
    FoundOnPage(pages, searchQuery, "12345", timestamp, limits, 1, 7);
  }
}
